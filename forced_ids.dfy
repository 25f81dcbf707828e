/**
 * The forced-count registry: creature template ids that are scaled as if the instance
 * held a fixed number of players (2, 5, 10, 25 or 40), or not scaled at all (0).
 * The lists come from comma-separated configuration strings.
 */
module ForcedIds {
  import opened Numbers

  // ---------------------------------------------------------------------------
  // Splitting on ',' the way repeated std::getline(stream, token, ',') does
  // ---------------------------------------------------------------------------

  /** Index of the first ',' in s, or |s| when there is none. */
  function CommaIndex(s: string): (i: nat)
    ensures i <= |s|
    ensures i < |s| ==> s[i] == ','
    ensures NoComma(s[..i])
  {
    if s == [] || s[0] == ',' then 0
    else
      var j := CommaIndex(s[1..]);
      assert s[..j + 1] == [s[0]] + s[1..][..j];
      j + 1
  }

  /**
   * The tokens getline produces: every ','-terminated piece, plus the text after the last
   * ',' when it is not empty (an empty string yields no token at all).
   */
  function Tokens(s: string): seq<string>
    decreases |s|
  {
    if s == [] then []
    else
      var i := CommaIndex(s);
      if i == |s| then [s] else [s[..i]] + Tokens(s[i + 1..])
  }

  /** Tokens joined back with ',' separators. */
  function Join(ts: seq<string>): string {
    if ts == [] then [] else if |ts| == 1 then ts[0] else ts[0] + [','] + Join(ts[1..])
  }

  predicate NoComma(t: string) {
    forall k :: 0 <= k < |t| ==> t[k] != ','
  }

  /** No token contains a ','. */
  lemma {:induction false} TokensHaveNoComma(s: string)
    ensures forall j :: 0 <= j < |Tokens(s)| ==> NoComma(Tokens(s)[j])
    decreases |s|
  {
    if s != [] {
      var i := CommaIndex(s);
      if i == |s| {
        assert s[..i] == s;
      } else {
        TokensHaveNoComma(s[i + 1..]);
        var ts := Tokens(s);
        assert ts == [s[..i]] + Tokens(s[i + 1..]);
        forall j | 0 <= j < |ts| ensures NoComma(ts[j]) {
          if j > 0 {
            assert ts[j] == Tokens(s[i + 1..])[j - 1];
          }
        }
      }
    }
  }

  /**
   * Splitting loses nothing but a trailing ',': joining the tokens back with ',' gives the
   * string, minus its last character when that is a ','.
   */
  lemma {:induction false} TokensJoin(s: string)
    ensures s != [] && s[|s| - 1] == ',' ==> Join(Tokens(s)) + [','] == s
    ensures !(s != [] && s[|s| - 1] == ',') ==> Join(Tokens(s)) == s
    decreases |s|, 1
  {
    if s != [] {
      var i := CommaIndex(s);
      if i == |s| {
        assert s[..i] == s;
      } else {
        TokensJoinAtComma(s, i);
      }
    }
  }

  /** TokensJoin when s has a ',' at index i, its first. */
  lemma {:induction false} TokensJoinAtComma(s: string, i: nat)
    requires i < |s| && i == CommaIndex(s)
    ensures s[|s| - 1] == ',' ==> Join(Tokens(s)) + [','] == s
    ensures s[|s| - 1] != ',' ==> Join(Tokens(s)) == s
    decreases |s|, 0
  {
    var rest := s[i + 1..];
    TokensAtComma(s, i);
    assert s == s[..i] + [','] + rest;
    if rest != [] {
      TokensJoin(rest);
      TokensNonEmpty(rest);
    }
    Reassemble(s[..i], rest, Tokens(rest), s);
  }

  /** Tokens(s) when s has a ',' at index i, its first: the text before it, then the rest's tokens. */
  lemma {:induction false} TokensAtComma(s: string, i: nat)
    requires i < |s| && i == CommaIndex(s)
    ensures Tokens(s) == [s[..i]] + Tokens(s[i + 1..])
  {
  }

  /** Putting a head and a ',' in front of the rejoined tokens of the rest. */
  lemma {:induction false} Reassemble(head: string, rest: string, restTokens: seq<string>, s: string)
    requires s == head + [','] + rest
    requires rest == [] ==> restTokens == []
    requires rest != [] ==> restTokens != []
    requires rest != [] && rest[|rest| - 1] == ',' ==> Join(restTokens) + [','] == rest
    requires rest != [] && rest[|rest| - 1] != ',' ==> Join(restTokens) == rest
    ensures s[|s| - 1] == ',' ==> Join([head] + restTokens) + [','] == s
    ensures s[|s| - 1] != ',' ==> Join([head] + restTokens) == s
  {
    if rest == [] {
      assert [head] + restTokens == [head];
    } else {
      JoinCons(head, restTokens);
      assert s[|s| - 1] == rest[|rest| - 1];
      if rest[|rest| - 1] == ',' {
        assert head + [','] + Join(restTokens) + [','] == head + [','] + (Join(restTokens) + [',']);
      }
    }
  }

  lemma {:induction false} JoinCons(head: string, tail: seq<string>)
    requires tail != []
    ensures Join([head] + tail) == head + [','] + Join(tail)
  {
    assert ([head] + tail)[1..] == tail;
  }

  lemma {:induction false} TokensNonEmpty(s: string)
    requires s != []
    ensures Tokens(s) != []
  {
  }

  // ---------------------------------------------------------------------------
  // atoi: leading white space, an optional sign, then the longest run of digits
  // ---------------------------------------------------------------------------

  predicate IsSpace(c: char) {
    c == ' ' || c == '\t' || c == '\n' || c == '\r' || c == '\U{B}' || c == '\U{C}'
  }

  predicate IsDigit(c: char) {
    '0' <= c <= '9'
  }

  function SkipSpaces(s: string): (t: string)
    ensures |t| <= |s| && t == s[|s| - |t|..]
    ensures t != [] ==> !IsSpace(t[0])
    ensures forall k :: 0 <= k < |s| - |t| ==> IsSpace(s[k])
  {
    if s != [] && IsSpace(s[0]) then SkipSpaces(s[1..]) else s
  }

  /** The longest prefix of s made of decimal digits. */
  function DigitPrefix(s: string): (d: string)
    ensures |d| <= |s| && d == s[..|d|]
    ensures forall k :: 0 <= k < |d| ==> IsDigit(d[k])
  {
    if s != [] && IsDigit(s[0]) then [s[0]] + DigitPrefix(s[1..]) else []
  }

  /** The value of a run of decimal digits, most significant first. */
  function DigitsValue(d: string): (n: nat)
    requires forall k :: 0 <= k < |d| ==> IsDigit(d[k])
  {
    if d == [] then 0 else 10 * DigitsValue(d[..|d| - 1]) + DigitValue(d[|d| - 1])
  }

  function DigitValue(c: char): nat
    requires IsDigit(c)
  {
    c as int - '0' as int
  }

  /**
   * atoi as the registry uses it. Overflow of the C int is not modelled: the value
   * of the digits is unbounded here.
   */
  function Atoi(s: string): (n: int)
    ensures n < 0 ==> SkipSpaces(s) != [] && SkipSpaces(s)[0] == '-'
  {
    var t := SkipSpaces(s);
    if t != [] && t[0] == '-' then -(DigitsValue(DigitPrefix(t[1..])) as int)
    else if t != [] && t[0] == '+' then DigitsValue(DigitPrefix(t[1..]))
    else DigitsValue(DigitPrefix(t))
  }

  /** Decimal text of a natural number, as a configuration file would spell it. */
  function Decimal(n: nat): (d: string)
    ensures d != [] && forall k :: 0 <= k < |d| ==> IsDigit(d[k])
  {
    if n < 10 then [('0' as int + n) as char]
    else Decimal(n / 10) + [('0' as int + n % 10) as char]
  }

  lemma {:induction false} DecimalValue(n: nat)
    ensures DigitsValue(Decimal(n)) == n
  {
    if n >= 10 {
      DecimalValue(n / 10);
      var d := Decimal(n);
      assert d[..|d| - 1] == Decimal(n / 10);
    }
  }

  lemma {:induction false} DigitPrefixOfDigits(d: string, rest: string)
    requires forall k :: 0 <= k < |d| ==> IsDigit(d[k])
    requires rest == [] || !IsDigit(rest[0])
    ensures DigitPrefix(d + rest) == d
  {
    if d != [] {
      assert (d + rest)[1..] == d[1..] + rest;
      DigitPrefixOfDigits(d[1..], rest);
    } else {
      assert d + rest == rest;
    }
  }

  /**
   * atoi reads back what Decimal writes, with or without a minus sign, and stops at the
   * first character that is not a digit.
   */
  lemma AtoiDecimal(n: nat, rest: string)
    requires rest == [] || !IsDigit(rest[0])
    ensures Atoi(Decimal(n) + rest) == n
    ensures Atoi(['-'] + Decimal(n) + rest) == -(n as int)
  {
    AtoiOfDecimal(n, rest);
    AtoiOfNegatedDecimal(n, rest);
  }

  lemma {:induction false} AtoiOfDecimal(n: nat, rest: string)
    requires rest == [] || !IsDigit(rest[0])
    ensures Atoi(Decimal(n) + rest) == n
  {
    var d := Decimal(n);
    DigitPrefixOfDigits(d, rest);
    DecimalValue(n);
    AtoiOfDigits(d + rest, d);
  }

  lemma {:induction false} AtoiOfNegatedDecimal(n: nat, rest: string)
    requires rest == [] || !IsDigit(rest[0])
    ensures Atoi(['-'] + Decimal(n) + rest) == -(n as int)
  {
    var d := Decimal(n);
    DigitPrefixOfDigits(d, rest);
    DecimalValue(n);
    var m := ['-'] + d + rest;
    assert m[1..] == d + rest;
    AtoiOfNegative(m, d);
  }

  lemma {:induction false} AtoiOfDigits(p: string, d: string)
    requires d != [] && forall k :: 0 <= k < |d| ==> IsDigit(d[k])
    requires DigitPrefix(p) == d
    ensures Atoi(p) == DigitsValue(d)
  {
    assert p[0] == d[0];
    assert !IsSpace(p[0]);
    assert SkipSpaces(p) == p;
  }

  lemma {:induction false} AtoiOfNegative(m: string, d: string)
    requires m != [] && m[0] == '-'
    requires forall k :: 0 <= k < |d| ==> IsDigit(d[k])
    requires DigitPrefix(m[1..]) == d
    ensures Atoi(m) == -(DigitsValue(d) as int)
  {
    assert SkipSpaces(m) == m;
  }

  /** An empty token (",5" or "5,,6") reads as template id 0. */
  lemma EmptyTokenIsIdZero()
    ensures Tokens(",5") == ["", "5"]
    ensures Atoi("") == 0
  {
    assert CommaIndex(",5") == 0;
    assert CommaIndex("5") == 1;
  }

  // ---------------------------------------------------------------------------
  // The registry
  // ---------------------------------------------------------------------------

  /** Template id each token denotes, when atoi reads it as non-negative. */
  predicate Listed(ts: seq<string>, id: int) {
    id >= 0 && exists j :: 0 <= j < |ts| && Atoi(ts[j]) == id
  }

  /** Entering every token of one list, in order, with the list's player count. */
  function LoadTokens(m: map<int, int>, ts: seq<string>, count: int): map<int, int>
  {
    if ts == [] then m
    else
      var before := LoadTokens(m, ts[..|ts| - 1], count);
      var id := Atoi(ts[|ts| - 1]);
      if id >= 0 then before[id := count] else before
  }

  /**
   * Loading a list adds exactly the non-negative ids it names, all mapped to the list's
   * count, and leaves every other entry as it was.
   */
  lemma {:induction false} LoadTokensSpec(m: map<int, int>, ts: seq<string>, count: int, id: int)
    ensures id in LoadTokens(m, ts, count) <==> id in m || Listed(ts, id)
    ensures Listed(ts, id) ==> LoadTokens(m, ts, count)[id] == count
    ensures !Listed(ts, id) && id in m ==> LoadTokens(m, ts, count)[id] == m[id]
  {
    if ts != [] {
      LoadTokensSpec(m, ts[..|ts| - 1], count, id);
      ListedLast(ts, id);
    }
  }

  /** The ids a list names are those its shorter prefix names plus the last token's. */
  lemma {:induction false} ListedLast(ts: seq<string>, id: int)
    requires ts != []
    ensures Listed(ts, id) <==> Listed(ts[..|ts| - 1], id) || (id >= 0 && Atoi(ts[|ts| - 1]) == id)
  {
    var init := ts[..|ts| - 1];
    if Listed(init, id) {
      var j :| 0 <= j < |init| && Atoi(init[j]) == id;
      assert ts[j] == init[j];
    }
    if Listed(ts, id) && !(id >= 0 && Atoi(ts[|ts| - 1]) == id) {
      var j :| 0 <= j < |ts| && Atoi(ts[j]) == id;
      assert j < |init| && init[j] == ts[j];
    }
  }


  /** Loading one more token extends the map by that token's entry. */
  lemma {:induction false} LoadOneMore(m: map<int, int>, ts: seq<string>, i: nat, count: int)
    requires i < |ts|
    ensures LoadTokens(m, ts[..i + 1], count) ==
      var before := LoadTokens(m, ts[..i], count);
      if Atoi(ts[i]) >= 0 then before[Atoi(ts[i]) := count] else before
  {
    assert ts[..i + 1][..i] == ts[..i];
  }

  /** The six configuration strings, in the order they are loaded. */
  datatype ForcedLists = ForcedLists(
    forced40: string, forced25: string, forced10: string, forced5: string, forced2: string,
    disabled: string)

  /** The registry after a (re)load: cleared, then the lists loaded 40, 25, 10, 5, 2, disabled. */
  function ForcedMap(lists: ForcedLists): map<int, int> {
    var m40 := LoadTokens(map[], Tokens(lists.forced40), 40);
    var m25 := LoadTokens(m40, Tokens(lists.forced25), 25);
    var m10 := LoadTokens(m25, Tokens(lists.forced10), 10);
    var m5 := LoadTokens(m10, Tokens(lists.forced5), 5);
    var m2 := LoadTokens(m5, Tokens(lists.forced2), 2);
    LoadTokens(m2, Tokens(lists.disabled), 0)
  }

  /** -1 for a template id with no entry, the stored count otherwise. */
  function GetForcedNumPlayers(forced: map<int, int>, creatureId: int): (r: int)
    ensures creatureId !in forced ==> r == -1
    ensures creatureId in forced ==> r == forced[creatureId]
  {
    if creatureId !in forced then -1 else forced[creatureId]
  }

  /**
   * What a lookup returns after a reload: the count of the LAST list that names the id
   * (so the disabled list wins over every forced list), and -1 when no list names it.
   */
  lemma ForcedLookup(lists: ForcedLists, id: int)
    ensures id in ForcedMap(lists) <==>
      Listed(Tokens(lists.disabled), id) || Listed(Tokens(lists.forced2), id) ||
      Listed(Tokens(lists.forced5), id) || Listed(Tokens(lists.forced10), id) ||
      Listed(Tokens(lists.forced25), id) || Listed(Tokens(lists.forced40), id)
    ensures GetForcedNumPlayers(ForcedMap(lists), id) ==
      if Listed(Tokens(lists.disabled), id) then 0
      else if Listed(Tokens(lists.forced2), id) then 2
      else if Listed(Tokens(lists.forced5), id) then 5
      else if Listed(Tokens(lists.forced10), id) then 10
      else if Listed(Tokens(lists.forced25), id) then 25
      else if Listed(Tokens(lists.forced40), id) then 40
      else -1
  {
    var m40 := LoadTokens(map[], Tokens(lists.forced40), 40);
    var m25 := LoadTokens(m40, Tokens(lists.forced25), 25);
    var m10 := LoadTokens(m25, Tokens(lists.forced10), 10);
    var m5 := LoadTokens(m10, Tokens(lists.forced5), 5);
    var m2 := LoadTokens(m5, Tokens(lists.forced2), 2);
    LoadTokensSpec(map[], Tokens(lists.forced40), 40, id);
    LoadTokensSpec(m40, Tokens(lists.forced25), 25, id);
    LoadTokensSpec(m25, Tokens(lists.forced10), 10, id);
    LoadTokensSpec(m10, Tokens(lists.forced5), 5, id);
    LoadTokensSpec(m5, Tokens(lists.forced2), 2, id);
    LoadTokensSpec(m2, Tokens(lists.disabled), 0, id);
  }

  /** After a reload, -1 is returned exactly for ids that are absent, and negative ids are never present. */
  lemma SentinelMeansAbsent(lists: ForcedLists, id: int)
    ensures GetForcedNumPlayers(ForcedMap(lists), id) == -1 <==> id !in ForcedMap(lists)
    ensures id < 0 ==> id !in ForcedMap(lists)
  {
    ForcedLookup(lists, id);
  }

  /** The static registry map, reassigned by a reload. */
  class ForcedCreatureIds {
    var ids: map<int, int>

    constructor ()
      ensures ids == map[]
    {
      ids := map[];
    }

    /** Enters every token of creatureIds that atoi reads as >= 0, mapped to forcedPlayerCount. */
    method LoadFromString(creatureIds: string, forcedPlayerCount: int)
      modifies this
      ensures ids == LoadTokens(old(ids), Tokens(creatureIds), forcedPlayerCount)
    {
      LoadTokenList(Tokens(creatureIds), forcedPlayerCount);
    }

    /** The getline loop over the tokens, in order. */
    method LoadTokenList(tokens: seq<string>, forcedPlayerCount: int)
      modifies this
      ensures ids == LoadTokens(old(ids), tokens, forcedPlayerCount)
    {
      var start := ids;
      var i := 0;
      while i < |tokens|
        invariant 0 <= i <= |tokens|
        invariant ids == LoadTokens(start, tokens[..i], forcedPlayerCount)
      {
        LoadOneMore(start, tokens, i, forcedPlayerCount);
        var creatureId := Atoi(tokens[i]);
        if creatureId >= 0 {
          ids := ids[creatureId := forcedPlayerCount];
        }
        i := i + 1;
      }
      assert tokens[..i] == tokens;
    }

    /** Clears the registry and loads the six lists in the source's order. */
    method Reload(lists: ForcedLists)
      modifies this
      ensures ids == ForcedMap(lists)
    {
      ids := map[];
      LoadFromString(lists.forced40, 40);
      LoadFromString(lists.forced25, 25);
      LoadFromString(lists.forced10, 10);
      LoadFromString(lists.forced5, 5);
      LoadFromString(lists.forced2, 2);
      LoadFromString(lists.disabled, 0);
    }
  }
}
