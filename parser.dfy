/**
  The argument parsing and routing of `naga_analyze`: which platform the
  first argument names, and the game reference or the user-facing error each
  dialect yields before any rate-limit token is requested.
 */
module Parser {
  import opened Wrappers
  import opened Text
  import opened Patterns

  /**
    The collaborators the parser calls but whose code is not part of this
    model: `decode_integer` (None where it raises ValueError), `urlparse`
    followed by `parse_qs` on the query component, Python's `int()` (None
    where it raises ValueError), and the bot's command prefix.
   */
  datatype Env = Env(
    decode: string -> Option<int>,
    parseQuery: string -> map<string, seq<string>>,
    parseInt: string -> Option<int>,
    cmdStart: string)

  /** The unguarded failures of the Tenhou dialect. */
  datatype Crash =
    | MissingLog    // `tenhou_query["log"][0]` raises KeyError (or IndexError)
    | BadSeat       // `int(tenhou_query["tw"][0])` raises ValueError

  /** What the parser hands on to the rest of the handler. */
  datatype Request =
    | Usage                                           // neither dialect: send the usage text
    | Majsoul(uuid: string, kyoku: int, honba: int)   // analyze one Majsoul kyoku
    | Tenhou(haihuId: string, seat: int)              // analyze one Tenhou game
    | Rejected(message: string)                       // BadRequestError raised by the parser
    | Crashed(crash: Crash)                           // an exception the handler does not catch

  const BadPaipu: string := "不正确的雀魂牌谱"
  const MissingKyokuHonba: string := "请指定场次与本场"
  const BadKyokuHonba: string := "请输入正确的场次与本场"

  /** The zero-based kyoku of round `round` of wind `wind`. */
  function KyokuOf(wind: char, round: int): int
  {
    if wind == '南' then round - 1 + 4 else round - 1
  }

  /**
    The second argument read as a (kyoku, honba) pair: a match of the
    kyoku/honba pattern whose round and honba numerals both decode. East round
    N is kyoku N - 1, south round N is kyoku N + 3, and honba is the decoded
    honba numeral as it is.
   */
  function ParseKyokuHonba(arg: string, decode: string -> Option<int>): (r: Option<(int, int)>)
    ensures r.Some? <==> SearchKyokuHonba(arg).Some?
                         && decode(SearchKyokuHonba(arg).value.round).Some?
                         && decode(SearchKyokuHonba(arg).value.honba).Some?
    ensures r.Some? ==>
              var g := SearchKyokuHonba(arg).value;
              var round := decode(g.round).value;
              && (g.wind == '东' ==> r.value.0 == round - 1)
              && (g.wind == '南' ==> r.value.0 == round + 3)
              && r.value.1 == decode(g.honba).value
  {
    match SearchKyokuHonba(arg)
    case None => None
    case Some(g) =>
      match decode(g.round)
      case None => None
      case Some(round) =>
        match decode(g.honba)
        case None => None
        case Some(honba) => Some((KyokuOf(g.wind, round), honba))
  }

  /** `decode_integer` reads the eight round numerals the pattern admits as 1 to 4. */
  predicate DecodesRounds(decode: string -> Option<int>)
  {
    && decode("1") == Some(1) && decode("2") == Some(2) && decode("3") == Some(3) && decode("4") == Some(4)
    && decode("一") == Some(1) && decode("二") == Some(2) && decode("三") == Some(3) && decode("四") == Some(4)
  }

  /** With a decoder that reads the round numerals correctly, every parsed kyoku lies in 0..7. */
  lemma {:induction false} KyokuInRange(arg: string, decode: string -> Option<int>)
    requires DecodesRounds(decode)
    ensures ParseKyokuHonba(arg, decode).Some? ==> 0 <= ParseKyokuHonba(arg, decode).value.0 <= 7
  {
    if ParseKyokuHonba(arg, decode).Some? {
      var g := SearchKyokuHonba(arg).value;
      var c := g.round[0];
      assert g.round == [c];
      assert 1 <= decode(g.round).value <= 4 by {
        if c == '一' { assert g.round == "一"; }
        else if c == '二' { assert g.round == "二"; }
        else if c == '三' { assert g.round == "三"; }
        else if c == '四' { assert g.round == "四"; }
        else if c == '1' { assert g.round == "1"; }
        else if c == '2' { assert g.round == "2"; }
        else if c == '3' { assert g.round == "3"; }
        else { assert g.round == "4"; }
      }
    }
  }

  /**
    The Majsoul dialect. Its three input errors are checked in this order:
    no UUID in the first argument, no second argument, and a second argument
    that does not read as a (kyoku, honba) pair.
   */
  function ParseMajsoul(args: seq<string>, decode: string -> Option<int>): (r: Request)
    requires |args| >= 1
    ensures r.Majsoul? || r.Rejected?
    ensures r == Rejected(BadPaipu) <==> SearchUuid(args[0]).None?
    ensures r == Rejected(MissingKyokuHonba) <==> SearchUuid(args[0]).Some? && |args| < 2
    ensures r == Rejected(BadKyokuHonba) <==>
              SearchUuid(args[0]).Some? && |args| >= 2 && ParseKyokuHonba(args[1], decode).None?
    ensures r.Majsoul? <==>
              SearchUuid(args[0]).Some? && |args| >= 2 && ParseKyokuHonba(args[1], decode).Some?
    ensures r.Majsoul? ==>
              && SearchUuid(args[0]) == Some(r.uuid)
              && |args| >= 2 && ParseKyokuHonba(args[1], decode) == Some((r.kyoku, r.honba))
  {
    match SearchUuid(args[0])
    case None => Rejected(BadPaipu)
    case Some(uuid) =>
      if |args| < 2 then Rejected(MissingKyokuHonba)
      else
        match ParseKyokuHonba(args[1], decode)
        case None => Rejected(BadKyokuHonba)
        case Some((kyoku, honba)) => Majsoul(uuid, kyoku, honba)
  }

  /**
    The Tenhou dialect on the parsed query of the URL: `log` is mandatory and
    its first value is the log id; the seat is the first `tw` value read as an
    integer when there is one, and 0 otherwise.
   */
  function ParseTenhou(query: map<string, seq<string>>, parseInt: string -> Option<int>): (r: Request)
    ensures r.Tenhou? || r.Crashed?
    ensures r == Crashed(MissingLog) <==> "log" !in query || |query["log"]| == 0
    ensures r == Crashed(BadSeat) <==>
              "log" in query && |query["log"]| > 0
              && "tw" in query && |query["tw"]| > 0 && parseInt(query["tw"][0]).None?
    ensures r.Tenhou? ==> "log" in query && |query["log"]| > 0 && r.haihuId == query["log"][0]
    ensures r.Tenhou? && ("tw" !in query || |query["tw"]| == 0) ==> r.seat == 0
    ensures r.Tenhou? && "tw" in query && |query["tw"]| > 0 ==> parseInt(query["tw"][0]) == Some(r.seat)
  {
    if "log" !in query || |query["log"]| == 0 then Crashed(MissingLog)
    else
      var haihuId := query["log"][0];
      if "tw" in query && |query["tw"]| > 0 then
        match parseInt(query["tw"][0])
        case None => Crashed(BadSeat)
        case Some(seat) => Tenhou(haihuId, seat)
      else Tenhou(haihuId, 0)
  }

  /** The argument list: the command text split on single spaces. */
  function Args(text: string): (args: seq<string>)
    ensures |args| >= 1
  {
    Split(text, ' ')
  }

  /**
    The router: "maj-soul" in the first argument selects the Majsoul dialect,
    otherwise "tenhou" selects the Tenhou dialect, otherwise the usage text is
    sent.
   */
  function Route(text: string, env: Env): (r: Request)
    ensures var a0 := Args(text)[0];
            && (r.Majsoul? || r.Rejected? <==> Contains(a0, "maj-soul"))
            && (r.Tenhou? || r.Crashed? <==> !Contains(a0, "maj-soul") && Contains(a0, "tenhou"))
            && (r.Usage? <==> !Contains(a0, "maj-soul") && !Contains(a0, "tenhou"))
    ensures r.Majsoul? || r.Rejected? ==> r == ParseMajsoul(Args(text), env.decode)
    ensures r.Tenhou? || r.Crashed? ==> r == ParseTenhou(env.parseQuery(Strip(Args(text)[0])), env.parseInt)
  {
    var args := Args(text);
    if Contains(args[0], "maj-soul") then ParseMajsoul(args, env.decode)
    else if Contains(args[0], "tenhou") then ParseTenhou(env.parseQuery(Strip(args[0])), env.parseInt)
    else Usage
  }
}
