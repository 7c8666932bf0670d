/**
  `analyze_majsoul`, `analyze_tenhou` and the body of `naga_analyze` after
  parsing: the rate-limit token protocol around the remote analysis call, the
  success reply, and the translation of remote failures into BadRequest
  messages.
 */
module Dispatcher {
  import opened Wrappers
  import opened Text
  import opened Patterns
  import opened Parser

  /** How the remote analysis call ends: a report and its cost, or one of the errors it raises. */
  datatype RemoteOutcome =
    | Success(reportId: string, cost: int)
    | DownloadError(code: int)                          // MajsoulDownloadError
    | InvalidKyokuHonba(available: seq<(int, int)>)     // InvalidKyokuHonbaError
    | UnsupportedGame                                   // UnsupportedGameError
    | OtherError                                        // anything else the client raises

  /** A remote analysis call with the arguments it was made with. */
  datatype Call =
    | MajsoulCall(uuid: string, kyoku: int, honba: int)
    | TenhouCall(haihuId: string, seat: int)

  /** How one invocation of the handler ends. */
  datatype Status =
    | Done                            // returned normally
    | Silent                          // the permission check failed: `matcher.finish()`
    | RateLimited                     // RateLimitedError
    | BadRequest(message: string)     // BadRequestError with its message
    | Propagated(error: RemoteOutcome) // a remote error re-raised as it is
    | Unhandled(crash: Crash)         // an exception raised while parsing the Tenhou URL

  /**
    Everything one step of the handler does to the world: whether it obtained
    a token, the remote call it made, whether it retired the token, the reply
    it sent, and how it ended.
   */
  datatype Effect = Effect(acquired: bool, call: Option<Call>, retired: bool, reply: Option<string>, status: Status)

  const PaipuNotFound: string := "牌谱不存在"
  const OnlyFourPlayer: string := "只支持四麻牌谱"
  const ReportBase: string := "https://naga.dmv.nico/htmls/"
  const AlreadyAnalyzed: string := "由于此前已解析过该局，本次解析消耗0NP"

  /** The first line of the success reply. */
  function ReportLine(reportId: string): string
  {
    ReportBase + reportId + ".html?tw=0\n"
  }

  /** The cost line of the success reply for a nonzero cost. */
  function CostLine(cost: int): string
  {
    "本次解析消耗" + IntToString(cost) + "NP"
  }

  /**
    The success reply: the report link, then the already-analyzed note when
    the analysis cost nothing, otherwise the cost in NP.
   */
  function SuccessText(reportId: string, cost: int): (r: string)
    ensures |r| > |ReportLine(reportId)| && r[..|ReportLine(reportId)|] == ReportLine(reportId)
    ensures cost == 0 <==> r[|ReportLine(reportId)|..] == AlreadyAnalyzed
    ensures cost != 0 ==> r[|ReportLine(reportId)|..] == CostLine(cost)
  {
    var r := ReportLine(reportId) + (if cost == 0 then AlreadyAnalyzed else CostLine(cost));
    assert r[|ReportLine(reportId)|..] == if cost == 0 then AlreadyAnalyzed else CostLine(cost);
    assert CostLine(cost)[0] != AlreadyAnalyzed[0];
    r
  }

  /** One suggestion, `{wind}{round}局{honba}本场`. */
  function Entry(wind: string, round: int, honba: int): string
  {
    wind + IntToString(round) + "局" + IntToString(honba) + "本场"
  }

  /**
    How one available (kyoku, honba) pair is shown: kyoku up to 3 as an east
    round numbered by the kyoku itself, larger kyoku as south round kyoku - 3.
   */
  function PairLabel(pair: (int, int)): string
  {
    if pair.0 <= 3 then Entry("东", pair.0, pair.1) else Entry("南", pair.0 - 3, pair.1)
  }

  /** The labels of the available pairs, in order. */
  function Labels(pairs: seq<(int, int)>): seq<string>
  {
    MapSeq(PairLabel, pairs)
  }

  /** The list of suggestions, joined by `、`. */
  function SuggestionList(pairs: seq<(int, int)>): string
  {
    Join(Labels(pairs), "、")
  }

  /** The BadRequest message for an invalid kyoku/honba: the suggestions in full-width parentheses. */
  function SuggestionMessage(pairs: seq<(int, int)>): string
  {
    BadKyokuHonba + "（" + SuggestionList(pairs) + "）"
  }

  /** The loop of `analyze_majsoul` that builds one label per available pair, in order. */
  method Suggestions(pairs: seq<(int, int)>) returns (entries: seq<string>)
    ensures entries == Labels(pairs)
  {
    entries := [];
    for i := 0 to |pairs|
      invariant entries == Labels(pairs[..i])
    {
      var (kyoku, honba) := pairs[i];
      var entry: string;
      if kyoku <= 3 {
        entry := Entry("东", kyoku, honba);
      } else {
        entry := Entry("南", kyoku - 3, honba);
      }
      assert pairs[..i + 1][..i] == pairs[..i];
      entries := entries + [entry];
    }
    assert pairs[..|pairs|] == pairs;
  }

  /** The decimal text of a number holds no `、`. */
  lemma {:induction false} NoSeparatorInNumber(n: int)
    ensures '、' !in IntToString(n)
  {
    IntToStringValue(n);
    var s := IntToString(n);
    if n < 0 {
      assert forall i :: 1 <= i < |s| ==> s[i] == s[1..][i - 1];
    }
  }

  /** No label contains the separator `、`. */
  lemma {:induction false} LabelHasNoSeparator(pair: (int, int))
    ensures '、' !in PairLabel(pair)
  {
    var k := if pair.0 <= 3 then pair.0 else pair.0 - 3;
    var w := if pair.0 <= 3 then '东' else '南';
    var a, b := IntToString(k), IntToString(pair.1);
    NoSeparatorInNumber(k);
    NoSeparatorInNumber(pair.1);
    assert PairLabel(pair) == [w] + a + "局" + b + "本场";
  }

  /** The suggestion list splits on `、` back into the labels, one per available pair. */
  lemma {:induction false} SuggestionListSplits(pairs: seq<(int, int)>)
    requires |pairs| >= 1
    ensures Split(SuggestionList(pairs), '、') == Labels(pairs)
    ensures |Split(SuggestionList(pairs), '、')| == |pairs|
  {
    forall k | 0 <= k < |pairs| ensures '、' !in Labels(pairs)[k] {
      MapSeqAt(PairLabel, pairs, k);
      LabelHasNoSeparator(pairs[k]);
    }
    SplitJoin(Labels(pairs), '、');
  }

  /** A label text, spelled out: wind, round digit, `局`, honba digits, `本场`. */
  function LabelText(wind: char, round: char, honba: string): string
  {
    [wind, round, '局'] + honba + ['本', '场']
  }

  /** Where each part of a label text sits. */
  lemma {:induction false} LabelTextParts(wind: char, round: char, honba: string)
    ensures var s, e := LabelText(wind, round, honba), 3 + |honba|;
            && |s| == e + 2 && s[0] == wind && s[1] == round && s[2] == '局' && s[e] == '本' && s[e + 1] == '场'
            && s[1..2] == [round] && s[3..e] == honba
            && forall k :: 3 <= k < e ==> s[k] == honba[k - 3]
  {
  }

  /** The kyoku/honba pattern finds a label with an admissible round digit at its start. */
  lemma {:induction false} LabelMatches(wind: char, round: char, honba: string)
    requires IsWind(wind) && IsRoundNumeral(round) && |honba| >= 1 && AllDigits(honba)
    ensures SearchKyokuHonba(LabelText(wind, round, honba)) == Some(KyokuHonbaGroups(wind, [round], honba))
  {
    var s := LabelText(wind, round, honba);
    var e := 3 + |honba|;
    LabelTextParts(wind, round, honba);
    assert MatchesAt(s, 0, e);
    MatchEndUnique(s, 0, e);
    assert FindKyokuHonba(s, 0) == Some((0, e));
  }

  /** The kyoku/honba pattern finds nothing in a label whose round digit is `0`. */
  lemma {:induction false} ZeroLabelUnmatched(wind: char, honba: string)
    requires |honba| >= 1 && AllDigits(honba)
    ensures SearchKyokuHonba(LabelText(wind, '0', honba)).None?
  {
    var s := LabelText(wind, '0', honba);
    LabelTextParts(wind, '0', honba);
    forall i: nat, j: nat ensures !MatchesAt(s, i, j) {
      if 0 < i < |s| {
        assert !IsWind(s[i]);
      }
    }
  }

  /** The wind a pair is shown with. */
  function ShownWind(kyoku: int): char
  {
    if kyoku <= 3 then '东' else '南'
  }

  /** The round number a pair is shown with. */
  function ShownRound(kyoku: int): int
  {
    if kyoku <= 3 then kyoku else kyoku - 3
  }

  /** The label of a pair with kyoku 0..7 is a label text with a one-digit round. */
  lemma {:induction false} PairLabelSpelledOut(pair: (int, int))
    requires 0 <= pair.0 <= 7
    ensures 0 <= ShownRound(pair.0) <= 4
    ensures PairLabel(pair) == LabelText(ShownWind(pair.0), DigitChar(ShownRound(pair.0)), IntToString(pair.1))
  {
    assert IntToString(ShownRound(pair.0)) == [DigitChar(ShownRound(pair.0))];
  }

  /** A decoder that reads the round numerals reads the round digits `1`-`4`. */
  lemma {:induction false} DecodeRoundDigit(round: nat, decode: string -> Option<int>)
    requires 1 <= round <= 4 && DecodesRounds(decode)
    ensures decode([DigitChar(round)]) == Some(round)
  {
    var c := DigitChar(round);
    if round == 1 { assert [c] == "1"; }
    else if round == 2 { assert [c] == "2"; }
    else if round == 3 { assert [c] == "3"; }
    else { assert [c] == "4"; }
  }

  /** A label text with a round digit 1-4 parses to the kyoku of that wind and round. */
  lemma {:induction false} ParseLabelText(wind: char, round: nat, honba: string, h: int, decode: string -> Option<int>)
    requires IsWind(wind) && 1 <= round <= 4 && |honba| >= 1 && AllDigits(honba)
    requires DecodesRounds(decode) && decode(honba) == Some(h)
    ensures ParseKyokuHonba(LabelText(wind, DigitChar(round), honba), decode) == Some((KyokuOf(wind, round), h))
  {
    LabelMatches(wind, DigitChar(round), honba);
    DecodeRoundDigit(round, decode);
  }

  /** The label of a pair with kyoku 1..7 parses to the kyoku of its shown wind and round. */
  lemma {:induction false} NonZeroLabelReadsBack(pair: (int, int), decode: string -> Option<int>)
    requires 1 <= pair.0 <= 7 && pair.1 >= 0
    requires DecodesRounds(decode) && decode(IntToString(pair.1)) == Some(pair.1)
    ensures ParseKyokuHonba(PairLabel(pair), decode) == Some((KyokuOf(ShownWind(pair.0), ShownRound(pair.0)), pair.1))
  {
    IntToStringValue(pair.1);
    PairLabelSpelledOut(pair);
    ParseLabelText(ShownWind(pair.0), ShownRound(pair.0), IntToString(pair.1), pair.1, decode);
  }

  /** The label of a pair with kyoku 0 does not parse. */
  lemma {:induction false} ZeroPairLabelUnmatched(pair: (int, int), decode: string -> Option<int>)
    requires pair.0 == 0 && pair.1 >= 0
    ensures ParseKyokuHonba(PairLabel(pair), decode).None?
  {
    IntToStringValue(pair.1);
    PairLabelSpelledOut(pair);
    ZeroLabelUnmatched(ShownWind(pair.0), IntToString(pair.1));
  }

  /**
    The labels read back through the kyoku/honba parser: a south label gives
    its own pair back; an east label gives a kyoku one lower than the pair's;
    the label of east kyoku 0 is not accepted at all.
   */
  lemma {:induction false} LabelReadsBack(pair: (int, int), decode: string -> Option<int>)
    requires 0 <= pair.0 <= 7 && pair.1 >= 0
    requires DecodesRounds(decode) && decode(IntToString(pair.1)) == Some(pair.1)
    ensures pair.0 >= 4 ==> ParseKyokuHonba(PairLabel(pair), decode) == Some(pair)
    ensures 1 <= pair.0 <= 3 ==> ParseKyokuHonba(PairLabel(pair), decode) == Some((pair.0 - 1, pair.1))
    ensures pair.0 == 0 ==> ParseKyokuHonba(PairLabel(pair), decode).None?
  {
    if pair.0 == 0 {
      ZeroPairLabelUnmatched(pair, decode);
    } else {
      NonZeroLabelReadsBack(pair, decode);
      if pair.0 >= 4 {
        assert KyokuOf(ShownWind(pair.0), ShownRound(pair.0)) == pair.0;
        assert (pair.0, pair.1) == pair;
      } else {
        assert KyokuOf(ShownWind(pair.0), ShownRound(pair.0)) == pair.0 - 1;
      }
    }
  }

  /** The suggestion list for the pairs (0, 0) and (5, 1): the east entry shows the kyoku itself. */
  lemma {:induction false} SuggestionListExample()
    ensures SuggestionList([(0, 0), (5, 1)]) == "东0局0本场、南2局1本场"
  {
    var pairs := [(0, 0), (5, 1)];
    assert IntToString(0) == "0";
    assert IntToString(1) == "1";
    assert IntToString(2) == "2";
    assert PairLabel(pairs[0]) == "东0局0本场";
    assert PairLabel(pairs[1]) == "南2局1本场";
    MapSeqAt(PairLabel, pairs, 0);
    MapSeqAt(PairLabel, pairs, 1);
    assert Labels(pairs) == ["东0局0本场", "南2局1本场"];
  }

  /** `南4局2本场` reads as kyoku 7, honba 2. */
  lemma {:induction false} SouthFourExample(decode: string -> Option<int>)
    requires decode("4") == Some(4) && decode("2") == Some(2)
    ensures ParseKyokuHonba("南4局2本场", decode) == Some((7, 2))
  {
    assert "南4局2本场" == LabelText('南', '4', "2");
    LabelMatches('南', '4', "2");
  }

  /**
    `analyze_majsoul`: no token means no call; otherwise the call is made and
    the token is retired exactly when the analysis was free, the download
    failed or the kyoku/honba was invalid. Download error 1203 and the two
    service errors become BadRequest messages, every other error propagates.
   */
  function MajsoulEffect(tokenAvailable: bool, uuid: string, kyoku: int, honba: int, outcome: RemoteOutcome): (e: Effect)
    ensures !tokenAvailable ==> e == Effect(false, None, false, None, RateLimited)
    ensures tokenAvailable ==> e.acquired && e.call == Some(MajsoulCall(uuid, kyoku, honba))
    ensures e.retired <==> tokenAvailable && (outcome.DownloadError? || outcome.InvalidKyokuHonba?
                                              || (outcome.Success? && outcome.cost == 0))
    ensures e.reply.Some? <==> tokenAvailable && outcome.Success?
    ensures tokenAvailable && outcome.Success? ==>
              e.reply == Some(SuccessText(outcome.reportId, outcome.cost)) && e.status == Done
    ensures tokenAvailable && outcome.DownloadError? ==>
              e.status == if outcome.code == 1203 then BadRequest(PaipuNotFound) else Propagated(outcome)
    ensures tokenAvailable && outcome.InvalidKyokuHonba? ==> e.status == BadRequest(SuggestionMessage(outcome.available))
    ensures tokenAvailable && outcome.UnsupportedGame? ==> e.status == BadRequest(OnlyFourPlayer)
    ensures tokenAvailable && outcome.OtherError? ==> e.status == Propagated(outcome)
  {
    if !tokenAvailable then Effect(false, None, false, None, RateLimited)
    else
      var call := Some(MajsoulCall(uuid, kyoku, honba));
      match outcome
      case Success(reportId, cost) => Effect(true, call, cost == 0, Some(SuccessText(reportId, cost)), Done)
      case DownloadError(code) =>
        Effect(true, call, true, None, if code == 1203 then BadRequest(PaipuNotFound) else Propagated(outcome))
      case InvalidKyokuHonba(available) => Effect(true, call, true, None, BadRequest(SuggestionMessage(available)))
      case UnsupportedGame => Effect(true, call, false, None, BadRequest(OnlyFourPlayer))
      case OtherError => Effect(true, call, false, None, Propagated(outcome))
  }

  /**
    `analyze_tenhou`: no token means no call; otherwise the call is made, the
    token is retired exactly when the analysis was free, and every remote
    error propagates without a retire.
   */
  function TenhouEffect(tokenAvailable: bool, haihuId: string, seat: int, outcome: RemoteOutcome): (e: Effect)
    ensures !tokenAvailable ==> e == Effect(false, None, false, None, RateLimited)
    ensures tokenAvailable ==> e.acquired && e.call == Some(TenhouCall(haihuId, seat))
    ensures e.retired <==> tokenAvailable && outcome.Success? && outcome.cost == 0
    ensures e.reply.Some? <==> tokenAvailable && outcome.Success?
    ensures tokenAvailable && outcome.Success? ==>
              e.reply == Some(SuccessText(outcome.reportId, outcome.cost)) && e.status == Done
    ensures tokenAvailable && !outcome.Success? ==> e.status == Propagated(outcome)
  {
    if !tokenAvailable then Effect(false, None, false, None, RateLimited)
    else
      var call := Some(TenhouCall(haihuId, seat));
      match outcome
      case Success(reportId, cost) => Effect(true, call, cost == 0, Some(SuccessText(reportId, cost)), Done)
      case _ => Effect(true, call, false, None, Propagated(outcome))
  }

  /** The usage text: a heading and one line per dialect, each with the bot's command prefix. */
  function UsageText(cmdStart: string): string
  {
    "用法：\n"
    + cmdStart + "naga <雀魂牌谱链接> <东/南x局x本场>：消耗10NP解析雀魂小局\n"
    + cmdStart + "naga <天凤牌谱链接>：消耗50NP解析天凤半庄"
  }

  /**
    A whole invocation of `naga_analyze`. A failed permission check ends it
    silently; nothing that the parser rejects, and neither the usage reply
    nor a Tenhou URL crash, ever asks for a token; a token is retired only
    after it was obtained, and a remote call is made only with a token, with
    the arguments the parser produced.
   */
  function HandleEffect(permitted: bool, text: string, env: Env, tokenAvailable: bool, outcome: RemoteOutcome): (e: Effect)
    ensures !permitted ==> e == Effect(false, None, false, None, Silent)
    ensures e.retired ==> e.acquired
    ensures e.call.Some? ==> e.acquired
    ensures permitted && Route(text, env).Usage? ==> e == Effect(false, None, false, Some(UsageText(env.cmdStart)), Done)
    ensures permitted && Route(text, env).Rejected? ==>
              e == Effect(false, None, false, None, BadRequest(Route(text, env).message))
    ensures permitted && Route(text, env).Crashed? ==> e == Effect(false, None, false, None, Unhandled(Route(text, env).crash))
    ensures permitted && Route(text, env).Majsoul? ==>
              var r := Route(text, env);
              e == MajsoulEffect(tokenAvailable, r.uuid, r.kyoku, r.honba, outcome)
    ensures permitted && Route(text, env).Tenhou? ==>
              var r := Route(text, env);
              e == TenhouEffect(tokenAvailable, r.haihuId, r.seat, outcome)
    ensures e.call.Some? && e.call.value.MajsoulCall? ==>
              Route(text, env) == Majsoul(e.call.value.uuid, e.call.value.kyoku, e.call.value.honba)
    ensures e.call.Some? && e.call.value.TenhouCall? ==>
              Route(text, env) == Tenhou(e.call.value.haihuId, e.call.value.seat)
  {
    if !permitted then Effect(false, None, false, None, Silent)
    else
      match Route(text, env)
      case Usage => Effect(false, None, false, Some(UsageText(env.cmdStart)), Done)
      case Rejected(message) => Effect(false, None, false, None, BadRequest(message))
      case Crashed(crash) => Effect(false, None, false, None, Unhandled(crash))
      case Majsoul(uuid, kyoku, honba) => MajsoulEffect(tokenAvailable, uuid, kyoku, honba, outcome)
      case Tenhou(haihuId, seat) => TenhouEffect(tokenAvailable, haihuId, seat, outcome)
  }

  /** A Majsoul input error never gets as far as the token: the reply is the parser's message. */
  lemma {:induction false} MajsoulInputErrorsTakeNoToken(text: string, env: Env, tokenAvailable: bool, outcome: RemoteOutcome)
    requires Contains(Args(text)[0], "maj-soul")
    requires ParseMajsoul(Args(text), env.decode).Rejected?
    ensures var e := HandleEffect(true, text, env, tokenAvailable, outcome);
            && !e.acquired && e.call.None? && !e.retired && e.reply.None?
            && e.status in {BadRequest(BadPaipu), BadRequest(MissingKyokuHonba), BadRequest(BadKyokuHonba)}
  {
  }

  /**
    The record of what the handler has done to the access-control service,
    the remote client and the chat, accumulated over the invocations it runs.
   */
  class Ledger {
    var acquired: nat          // tokens handed out by acquire_token_for_rate_limit
    var retired: nat           // token.retire() calls
    var calls: seq<Call>       // remote analysis calls, in order
    var replies: seq<string>   // texts sent with matcher.send, in order

    /** No token is retired that was not acquired, and each acquired token goes with exactly one call. */
    ghost predicate Valid()
      reads this
    {
      retired <= acquired && |calls| == acquired
    }

    constructor ()
      ensures Valid()
      ensures acquired == 0 && retired == 0 && calls == [] && replies == []
    {
      acquired, retired, calls, replies := 0, 0, [], [];
    }

    /** The state moved on by exactly the effect `e`. */
    twostate predicate Recorded(e: Effect)
      reads this
    {
      && acquired == old(acquired) + (if e.acquired then 1 else 0)
      && retired == old(retired) + (if e.retired then 1 else 0)
      && calls == old(calls) + (if e.call.Some? then [e.call.value] else [])
      && replies == old(replies) + (if e.reply.Some? then [e.reply.value] else [])
    }

    method AnalyzeMajsoul(tokenAvailable: bool, uuid: string, kyoku: int, honba: int, outcome: RemoteOutcome)
      returns (status: Status)
      requires Valid()
      modifies this
      ensures Valid()
      ensures Recorded(MajsoulEffect(tokenAvailable, uuid, kyoku, honba, outcome))
      ensures status == MajsoulEffect(tokenAvailable, uuid, kyoku, honba, outcome).status
    {
      if !tokenAvailable {
        status := RateLimited;
        return;
      }
      acquired := acquired + 1;
      calls := calls + [MajsoulCall(uuid, kyoku, honba)];
      match outcome
      case Success(reportId, cost) =>
        var msg := ReportLine(reportId);
        if cost == 0 {
          msg := msg + AlreadyAnalyzed;
          retired := retired + 1;
        } else {
          msg := msg + CostLine(cost);
        }
        replies := replies + [msg];
        status := Done;
      case DownloadError(code) =>
        retired := retired + 1;
        if code == 1203 {
          status := BadRequest(PaipuNotFound);
        } else {
          status := Propagated(outcome);
        }
      case InvalidKyokuHonba(available) =>
        retired := retired + 1;
        var entries := Suggestions(available);
        status := BadRequest(BadKyokuHonba + "（" + Join(entries, "、") + "）");
      case UnsupportedGame =>
        status := BadRequest(OnlyFourPlayer);
      case OtherError =>
        status := Propagated(outcome);
    }

    method AnalyzeTenhou(tokenAvailable: bool, haihuId: string, seat: int, outcome: RemoteOutcome)
      returns (status: Status)
      requires Valid()
      modifies this
      ensures Valid()
      ensures Recorded(TenhouEffect(tokenAvailable, haihuId, seat, outcome))
      ensures status == TenhouEffect(tokenAvailable, haihuId, seat, outcome).status
    {
      if !tokenAvailable {
        status := RateLimited;
        return;
      }
      acquired := acquired + 1;
      calls := calls + [TenhouCall(haihuId, seat)];
      if !outcome.Success? {
        status := Propagated(outcome);
        return;
      }
      var msg := ReportLine(outcome.reportId);
      if outcome.cost == 0 {
        msg := msg + AlreadyAnalyzed;
        retired := retired + 1;
      } else {
        msg := msg + CostLine(outcome.cost);
      }
      replies := replies + [msg];
      status := Done;
    }

    /**
      `naga_analyze`: the permission check, then the parser, then the
      dispatcher of the platform the parser chose.
     */
    method Handle(permitted: bool, text: string, env: Env, tokenAvailable: bool, outcome: RemoteOutcome)
      returns (status: Status)
      requires Valid()
      modifies this
      ensures Valid()
      ensures Recorded(HandleEffect(permitted, text, env, tokenAvailable, outcome))
      ensures status == HandleEffect(permitted, text, env, tokenAvailable, outcome).status
    {
      if !permitted {
        status := Silent;
        return;
      }
      var request := Route(text, env);
      match request
      case Usage =>
        replies := replies + [UsageText(env.cmdStart)];
        status := Done;
      case Rejected(message) =>
        status := BadRequest(message);
      case Crashed(crash) =>
        status := Unhandled(crash);
      case Majsoul(uuid, kyoku, honba) =>
        status := AnalyzeMajsoul(tokenAvailable, uuid, kyoku, honba, outcome);
      case Tenhou(haihuId, seat) =>
        status := AnalyzeTenhou(tokenAvailable, haihuId, seat, outcome);
    }
  }
}
