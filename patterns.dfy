/**
  The two regular expressions of the command handler, as leftmost searches
  (`re.search`). Python's `\d` also matches non-ASCII decimal digits; here it
  is the ASCII digits `0`-`9`.
 */
module Patterns {
  import opened Wrappers
  import opened Text

  // ---------------------------------------------------------------------------
  // uuid_reg: \d{6}-[\da-fA-F]{8}-[\da-fA-F]{4}-[\da-fA-F]{4}-[\da-fA-F]{4}-[\da-fA-F]{12}

  /** Every window the UUID pattern matches has this many characters. */
  const UuidLength: nat := 43

  predicate IsHexDigit(c: char)
  {
    IsDigit(c) || ('a' <= c <= 'f') || ('A' <= c <= 'F')
  }

  predicate AllHex(s: string)
  {
    forall k :: 0 <= k < |s| ==> IsHexDigit(s[k])
  }

  /** `w` is, as a whole, a match of the UUID pattern. */
  predicate UuidShape(w: string)
  {
    |w| == UuidLength
    && AllDigits(w[0..6]) && w[6] == '-'
    && AllHex(w[7..15]) && w[15] == '-'
    && AllHex(w[16..20]) && w[20] == '-'
    && AllHex(w[21..25]) && w[25] == '-'
    && AllHex(w[26..30]) && w[30] == '-'
    && AllHex(w[31..43])
  }

  /** The UUID pattern matches `s` at index `i`. */
  predicate UuidAt(s: string, i: nat)
  {
    i + UuidLength <= |s| && UuidShape(s[i..i + UuidLength])
  }

  /** The leftmost index at or after `from` where the UUID pattern matches. */
  function FindUuid(s: string, from: nat): (r: Option<nat>)
    ensures r.Some? ==> from <= r.value && UuidAt(s, r.value)
    ensures r.Some? ==> forall j :: from <= j < r.value ==> !UuidAt(s, j)
    ensures r.None? ==> forall j :: from <= j ==> !UuidAt(s, j)
    decreases |s| - from
  {
    if from + UuidLength > |s| then None
    else if UuidAt(s, from) then Some(from)
    else FindUuid(s, from + 1)
  }

  /** `uuid_reg.search(s).group(0)`, or None when there is no match. */
  function SearchUuid(s: string): (r: Option<string>)
    ensures r.None? <==> forall i :: 0 <= i ==> !UuidAt(s, i)
    ensures r.Some? ==> exists i: nat :: UuidAt(s, i) && r.value == s[i..i + UuidLength]
                                       && forall j :: 0 <= j < i ==> !UuidAt(s, j)
  {
    match FindUuid(s, 0)
    case None => None
    case Some(i) => Some(s[i..i + UuidLength])
  }

  /** What the UUID search finds is itself a UUID-shaped text. */
  lemma {:induction false} SearchUuidShape(s: string)
    ensures SearchUuid(s).Some? ==> UuidShape(SearchUuid(s).value)
  {
  }

  // ---------------------------------------------------------------------------
  // kyoku_honba_reg: ([东南])([一二三四1234])局([0123456789零一两二三四五六七八九十百千万亿]+)本场

  const Winds: string := "东南"
  const RoundNumerals: string := "一二三四1234"
  const HonbaNumerals: string := "0123456789零一两二三四五六七八九十百千万亿"

  predicate IsWind(c: char)
  {
    c == '东' || c == '南'
  }

  predicate IsRoundNumeral(c: char)
  {
    c == '一' || c == '二' || c == '三' || c == '四' || ('1' <= c <= '4')
  }

  predicate IsHonbaNumeral(c: char)
  {
    IsDigit(c) || c == '零' || c == '一' || c == '两' || c == '二' || c == '三' || c == '四' || c == '五'
    || c == '六' || c == '七' || c == '八' || c == '九' || c == '十' || c == '百' || c == '千' || c == '万' || c == '亿'
  }

  /** The character classes above are exactly the bracket expressions of the pattern. */
  lemma {:induction false} CharacterClasses(c: char)
    ensures IsWind(c) <==> c in Winds
    ensures IsRoundNumeral(c) <==> c in RoundNumerals
    ensures IsHonbaNumeral(c) <==> c in HonbaNumerals
  {
  }

  /**
    The pattern matches `s` at index `i` with the third group being
    `s[i + 3..j]`; the match ends with `本场` at `j`.
   */
  predicate MatchesAt(s: string, i: nat, j: nat)
  {
    i + 3 < j && j + 2 <= |s|
    && IsWind(s[i]) && IsRoundNumeral(s[i + 1]) && s[i + 2] == '局'
    && (forall k :: i + 3 <= k < j ==> IsHonbaNumeral(s[k]))
    && s[j] == '本' && s[j + 1] == '场'
  }

  /** The end of the longest run of honba numerals starting at `k`. */
  function RunEnd(s: string, k: nat): (e: nat)
    requires k <= |s|
    ensures k <= e <= |s|
    ensures forall m :: k <= m < e ==> IsHonbaNumeral(s[m])
    ensures e < |s| ==> !IsHonbaNumeral(s[e])
    decreases |s| - k
  {
    if k < |s| && IsHonbaNumeral(s[k]) then RunEnd(s, k + 1) else k
  }

  /**
    `本` is not a honba numeral, so the greedy third group can only end where
    the run of numerals ends: a match at `i` has one end only.
   */
  lemma {:induction false} MatchEndUnique(s: string, i: nat, j: nat)
    requires MatchesAt(s, i, j)
    ensures j == RunEnd(s, i + 3)
  {
    assert !IsHonbaNumeral('本');
  }

  /** When the match at `i` fails with the one possible end, it fails with every end. */
  lemma {:induction false} NoMatchAt(s: string, i: nat)
    requires i + 3 <= |s| && !MatchesAt(s, i, RunEnd(s, i + 3))
    ensures forall j :: !MatchesAt(s, i, j)
  {
    forall j | MatchesAt(s, i, j) ensures false { MatchEndUnique(s, i, j); }
  }

  /** The leftmost match start at or after `from`, with its end. */
  function FindKyokuHonba(s: string, from: nat): (r: Option<(nat, nat)>)
    ensures r.Some? ==> from <= r.value.0 && MatchesAt(s, r.value.0, r.value.1)
    ensures r.Some? ==> forall i, j :: from <= i < r.value.0 ==> !MatchesAt(s, i, j)
    ensures r.None? ==> forall i, j :: from <= i ==> !MatchesAt(s, i, j)
    decreases |s| - from
  {
    if from + 3 > |s| then None
    else
      var e := RunEnd(s, from + 3);
      if MatchesAt(s, from, e) then Some((from, e))
      else
        NoMatchAt(s, from);
        FindKyokuHonba(s, from + 1)
  }

  /** The three groups of a kyoku/honba match: wind, round numeral, honba numeral. */
  datatype KyokuHonbaGroups = KyokuHonbaGroups(wind: char, round: string, honba: string)

  /** The groups are the shape the pattern gives them. */
  predicate WellFormedGroups(g: KyokuHonbaGroups)
  {
    IsWind(g.wind) && |g.round| == 1 && IsRoundNumeral(g.round[0])
    && |g.honba| >= 1 && forall k :: 0 <= k < |g.honba| ==> IsHonbaNumeral(g.honba[k])
  }

  /** `kyoku_honba_reg.search(s).groups()`, or None when there is no match. */
  function SearchKyokuHonba(s: string): (r: Option<KyokuHonbaGroups>)
    ensures r.None? <==> forall i, j :: !MatchesAt(s, i, j)
    ensures r.Some? ==> WellFormedGroups(r.value)
    ensures r.Some? ==> exists i: nat, j: nat :: MatchesAt(s, i, j)
                          && r.value == KyokuHonbaGroups(s[i], s[i + 1..i + 2], s[i + 3..j])
                          && forall i', j' :: 0 <= i' < i ==> !MatchesAt(s, i', j')
  {
    match FindKyokuHonba(s, 0)
    case None => None
    case Some((i, j)) => Some(KyokuHonbaGroups(s[i], s[i + 1..i + 2], s[i + 3..j]))
  }
}
