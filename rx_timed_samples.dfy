/**
 * The timed-acquisition example client (rx_timed_samples_crimson): it parses
 * a channel list, asks the device for a receive streamer on those channels,
 * issues one NUM_SAMPS_AND_DONE command, possibly in the future, allocates
 * one buffer per channel and accumulates recv() results until it has enough
 * samples, times out or meets a receive error.
 *
 * recv() is modelled as a finite script of results handed back one per call;
 * the device clock is a parameter.
 */
module RxTimedSamples {
  import opened Wrappers
  import opened PropertyTree
  import opened Streaming
  import opened CrimsonIo

  // ---------------------------------------------------------------------
  // Splitting the channel list: boost::split with is_any_of("\"',")
  // ---------------------------------------------------------------------

  predicate IsDelimiter(ch: char)
  {
    ch == '"' || ch == '\'' || ch == ','
  }

  /** A token holds no delimiter. */
  predicate Clean(t: string)
  {
    forall i :: 0 <= i < |t| ==> !IsDelimiter(t[i])
  }

  /**
   * The tokens between delimiters, in order. Adjacent delimiters give empty
   * tokens, and the empty string gives one empty token.
   */
  function Split(s: string): (tokens: seq<string>)
    ensures |tokens| >= 1
    decreases |s|
  {
    if s == [] then [""]
    else
      var rest := Split(s[1..]);
      if IsDelimiter(s[0]) then [""] + rest
      else [[s[0]] + rest[0]] + rest[1..]
  }

  function DelimiterCount(s: string): nat
    decreases |s|
  {
    if s == [] then 0 else (if IsDelimiter(s[0]) then 1 else 0) + DelimiterCount(s[1..])
  }

  /** The tokens glued back together with `sep` between neighbours. */
  function Join(tokens: seq<string>, sep: char): string
    requires |tokens| >= 1
    decreases |tokens|
  {
    if |tokens| == 1 then tokens[0] else tokens[0] + [sep] + Join(tokens[1..], sep)
  }

  /** s with every delimiter written as a comma. */
  function Normalized(s: string): string
    decreases |s|
  {
    if s == [] then [] else [if IsDelimiter(s[0]) then ',' else s[0]] + Normalized(s[1..])
  }

  /** One token per delimiter, plus one. */
  lemma {:induction false} SplitCount(s: string)
    ensures |Split(s)| == DelimiterCount(s) + 1
    decreases |s|
  {
    if s != [] {
      SplitCount(s[1..]);
    }
  }

  /** No token holds a delimiter. */
  lemma {:induction false} SplitClean(s: string)
    ensures forall k :: 0 <= k < |Split(s)| ==> Clean(Split(s)[k])
    decreases |s|
  {
    if s != [] {
      SplitClean(s[1..]);
      var rest := Split(s[1..]);
      if !IsDelimiter(s[0]) {
        assert Clean(rest[0]);
        var t := [s[0]] + rest[0];
        assert forall i :: 1 <= i < |t| ==> t[i] == rest[0][i - 1];
      }
    }
  }

  lemma JoinCons(ch: char, tokens: seq<string>, sep: char)
    requires |tokens| >= 1
    ensures Join([[ch] + tokens[0]] + tokens[1..], sep) == [ch] + Join(tokens, sep)
  {
    var ts := [[ch] + tokens[0]] + tokens[1..];
    if |tokens| > 1 {
      assert ts[1..] == tokens[1..];
    }
  }

  /** Joining the tokens with commas gives back the list, each delimiter written as a comma. */
  lemma {:induction false} JoinSplit(s: string)
    ensures Join(Split(s), ',') == Normalized(s)
    decreases |s|
  {
    if s != [] {
      JoinSplit(s[1..]);
      var rest := Split(s[1..]);
      if IsDelimiter(s[0]) {
        assert ([""] + rest)[1..] == rest;
      } else {
        JoinCons(s[0], rest, ',');
      }
    }
  }

  /** Splitting a clean token followed by more text: the token heads the first piece. */
  lemma {:induction false} SplitAfterClean(t: string, x: string)
    requires Clean(t)
    ensures Split(t + x) == [t + Split(x)[0]] + Split(x)[1..]
    decreases |t|
  {
    if t == [] {
      assert t + x == x;
      assert t + Split(x)[0] == Split(x)[0];
      assert Split(x) == [Split(x)[0]] + Split(x)[1..];
    } else {
      assert (t + x)[1..] == t[1..] + x;
      assert Clean(t[1..]) by {
        assert forall i :: 0 <= i < |t[1..]| ==> t[1..][i] == t[i + 1];
      }
      SplitAfterClean(t[1..], x);
      assert [t[0]] + (t[1..] + Split(x)[0]) == t + Split(x)[0];
    }
  }

  /** Clean tokens joined with commas split back into the same tokens. */
  lemma {:induction false} SplitJoin(tokens: seq<string>)
    requires |tokens| >= 1
    requires forall k :: 0 <= k < |tokens| ==> Clean(tokens[k])
    ensures Split(Join(tokens, ',')) == tokens
    decreases |tokens|
  {
    if |tokens| == 1 {
      SplitAfterClean(tokens[0], []);
      assert tokens[0] + [] == tokens[0];
      assert Split([]) == [""];
      assert Split(Join(tokens, ',')) == [tokens[0]];
    } else {
      var tail := Join(tokens[1..], ',');
      var rest := [','] + tail;
      assert forall k :: 0 <= k < |tokens[1..]| ==> Clean(tokens[1..][k]) by {
        assert forall k :: 0 <= k < |tokens[1..]| ==> tokens[1..][k] == tokens[k + 1];
      }
      SplitJoin(tokens[1..]);
      AppendAssoc(tokens[0], [','], tail);
      assert Join(tokens, ',') == tokens[0] + rest;
      SplitAfterClean(tokens[0], rest);
      assert rest[1..] == tail;
      assert Split(rest) == [""] + tokens[1..];
      assert tokens[0] + Split(rest)[0] == tokens[0];
      assert Split(rest)[1..] == tokens[1..];
      SplitAt(tokens, 1);
      assert Split(Join(tokens, ',')) == [tokens[0]] + tokens[1..];
    }
  }

  // ---------------------------------------------------------------------
  // boost::lexical_cast<int>
  // ---------------------------------------------------------------------

  const Int32Min: int := -0x8000_0000
  const Int32Max: int := 0x7FFF_FFFF

  predicate IsDigit(ch: char)
  {
    '0' <= ch <= '9'
  }

  predicate AllDigits(s: string)
  {
    forall i :: 0 <= i < |s| ==> IsDigit(s[i])
  }

  /** The value of a string of decimal digits, most significant first. */
  function DigitsValue(s: string): nat
    requires AllDigits(s)
    decreases |s|
  {
    if s == [] then 0 else DigitsValue(s[..|s| - 1]) * 10 + (s[|s| - 1] as int - '0' as int)
  }

  /**
   * lexical_cast<int>(t): an optional sign, then one or more decimal digits,
   * nothing else, and a value that fits an int; anything else throws
   * bad_lexical_cast (None here).
   */
  function ParseInt(t: string): (r: Option<int>)
    ensures r.Some? ==> Int32Min <= r.value <= Int32Max
  {
    var signed := |t| > 0 && (t[0] == '-' || t[0] == '+');
    var digits := if signed then t[1..] else t;
    if digits == [] || !AllDigits(digits) then None
    else
      var v: int := if signed && t[0] == '-' then -(DigitsValue(digits) as int) else DigitsValue(digits);
      if Int32Min <= v <= Int32Max then Some(v) else None
  }

  /** Decimal text of n, without sign or leading zeros. */
  function ShowNat(n: nat): string
    decreases n
  {
    if n < 10 then [('0' as int + n) as char]
    else ShowNat(n / 10) + [('0' as int + n % 10) as char]
  }

  lemma {:induction false} ShowNatDigits(n: nat)
    ensures |ShowNat(n)| >= 1 && AllDigits(ShowNat(n)) && DigitsValue(ShowNat(n)) == n
    decreases n
  {
    if n >= 10 {
      ShowNatDigits(n / 10);
      var s := ShowNat(n);
      assert s[..|s| - 1] == ShowNat(n / 10);
    }
  }

  /** Every int-sized count printed in decimal parses back to itself. */
  lemma ParseShowNat(n: nat)
    requires n <= Int32Max
    ensures ParseInt(ShowNat(n)) == Some(n)
  {
    ShowNatDigits(n);
  }

  /** A minus sign in front negates, down to the smallest int. */
  lemma ParseShowNegative(n: nat)
    requires n <= -Int32Min
    ensures ParseInt("-" + ShowNat(n)) == Some(-(n as int))
  {
    ShowNatDigits(n);
    assert ("-" + ShowNat(n))[1..] == ShowNat(n);
  }

  /** Leading zeros do not change the value of a string of digits. */
  lemma {:induction false} LeadingZeros(z: string, d: string)
    requires forall i :: 0 <= i < |z| ==> z[i] == '0'
    requires AllDigits(d)
    ensures AllDigits(z + d) && DigitsValue(z + d) == DigitsValue(d)
    decreases |z| + |d|
  {
    if d == [] {
      assert z + d == z;
      if z != [] {
        LeadingZeros(z[..|z| - 1], []);
        assert z[..|z| - 1] + [] == z[..|z| - 1];
      }
    } else {
      LeadingZeros(z, d[..|d| - 1]);
      assert (z + d)[..|z + d| - 1] == z + d[..|d| - 1];
    }
  }

  /**
   * Any string of digits, bare or after a '+', parses to its decimal value
   * when that fits an int, and after a '-' to its negation down to the
   * smallest int; out of range it is rejected.
   */
  lemma ParseIntDigits(d: string)
    requires d != [] && AllDigits(d)
    ensures DigitsValue(d) <= Int32Max ==> ParseInt(d) == Some(DigitsValue(d) as int) && ParseInt("+" + d) == Some(DigitsValue(d) as int)
    ensures DigitsValue(d) > Int32Max ==> ParseInt(d).None? && ParseInt("+" + d).None?
    ensures DigitsValue(d) <= -Int32Min ==> ParseInt("-" + d) == Some(-(DigitsValue(d) as int))
    ensures DigitsValue(d) > -Int32Min ==> ParseInt("-" + d).None?
  {
    assert ("+" + d)[1..] == d;
    assert ("-" + d)[1..] == d;
  }

  /** Only an optional sign followed by one or more decimal digits, and nothing else, is accepted. */
  lemma ParseIntSyntax(t: string)
    requires ParseInt(t).Some?
    ensures |t| >= 1 && (t[0] == '-' || t[0] == '+' || IsDigit(t[0]))
    ensures !IsDigit(t[0]) ==> |t| >= 2
    ensures forall i :: 1 <= i < |t| ==> IsDigit(t[i])
  {
    if t[0] == '-' || t[0] == '+' {
      assert forall i :: 1 <= i < |t| ==> t[i] == t[1..][i - 1];
    }
  }

  /** Conversion of an int to size_t: negative values wrap around modulo 2^64. */
  function ToSizeT(v: int): (r: nat)
    requires Int32Min <= v <= Int32Max
    ensures r < 0x1_0000_0000_0000_0000
    ensures v >= 0 ==> r == v
    ensures v < 0 ==> r >= 0x8000_0000_0000_0000
  {
    if v < 0 then v + 0x1_0000_0000_0000_0000 else v
  }

  // ---------------------------------------------------------------------
  // Validating the channel list
  // ---------------------------------------------------------------------

  const InvalidChannelsMessage: string := "Invalid channel(s) specified."

  datatype ClientError =
    | BadLexicalCast(token: string)
    | RuntimeError(message: string)
    | ReceiverError(code: ErrorCode)
    | DeviceError(treeError: TreeError)

  /** One token: parse it, convert it to size_t and check it against both channel counts. */
  function ChannelCheck(t: string, txCount: nat, rxCount: nat): (r: Result<nat, ClientError>)
    ensures r.Success? ==> r.value < txCount && r.value < rxCount
    ensures r.Failure? ==> r.error == BadLexicalCast(t) || r.error == RuntimeError(InvalidChannelsMessage)
  {
    match ParseInt(t)
    case None => Failure(BadLexicalCast(t))
    case Some(v) =>
      var chan := ToSizeT(v);
      if chan >= txCount || chan >= rxCount then Failure(RuntimeError(InvalidChannelsMessage))
      else Success(chan)
  }

  /** The channel numbers of a token list, in order; the first bad token raises its error. */
  function ChannelNums(tokens: seq<string>, txCount: nat, rxCount: nat): (r: Result<seq<nat>, ClientError>)
    ensures r.Success? ==> forall i :: 0 <= i < |r.value| ==> r.value[i] < txCount && r.value[i] < rxCount
    decreases |tokens|
  {
    if tokens == [] then Success([])
    else
      match ChannelNums(tokens[..|tokens| - 1], txCount, rxCount)
      case Failure(e) => Failure(e)
      case Success(nums) =>
        match ChannelCheck(tokens[|tokens| - 1], txCount, rxCount)
        case Failure(e) => Failure(e)
        case Success(c) => Success(nums + [c])
  }

  /**
   * A token is accepted exactly when it is an int in range, not negative and
   * below both channel counts (counts below 2^63, so that no wrapped negative
   * value can pass), and then the channel is that int.
   */
  lemma ChannelCheckMeaning(t: string, txCount: nat, rxCount: nat)
    requires txCount < 0x8000_0000_0000_0000 && rxCount < 0x8000_0000_0000_0000
    ensures var r := ChannelCheck(t, txCount, rxCount);
            (r.Success? <==> ParseInt(t).Some? && 0 <= ParseInt(t).value < txCount && ParseInt(t).value < rxCount)
            && (r.Success? ==> r.value == ParseInt(t).value)
            && (r.Failure? ==> r.error == if ParseInt(t).None? then BadLexicalCast(t)
                                         else RuntimeError(InvalidChannelsMessage))
  {
  }

  /** Once a prefix of the tokens has failed, the rest changes nothing. */
  lemma {:induction false} ChannelNumsStopped(tokens: seq<string>, txCount: nat, rxCount: nat, k: nat)
    requires k <= |tokens|
    requires ChannelNums(tokens[..k], txCount, rxCount).Failure?
    ensures ChannelNums(tokens, txCount, rxCount) == ChannelNums(tokens[..k], txCount, rxCount)
    decreases |tokens| - k
  {
    if k < |tokens| {
      assert tokens[..k + 1][..k] == tokens[..k];
      ChannelNumsStopped(tokens, txCount, rxCount, k + 1);
    } else {
      assert tokens[..k] == tokens;
    }
  }

  /**
   * The list is accepted exactly when every token is, and then it holds the
   * tokens' channels in order.
   */
  lemma {:induction false} ChannelNumsAccepted(tokens: seq<string>, txCount: nat, rxCount: nat)
    ensures ChannelNums(tokens, txCount, rxCount).Success? <==>
              forall i :: 0 <= i < |tokens| ==> ChannelCheck(tokens[i], txCount, rxCount).Success?
    ensures var r := ChannelNums(tokens, txCount, rxCount);
            r.Success? ==> |r.value| == |tokens|
    ensures var r := ChannelNums(tokens, txCount, rxCount);
            r.Success? ==> forall i :: 0 <= i < |tokens| ==> ChannelCheck(tokens[i], txCount, rxCount) == Success(r.value[i])
    decreases |tokens|
  {
    if tokens != [] {
      var init, last := tokens[..|tokens| - 1], tokens[|tokens| - 1];
      ChannelNumsAccepted(init, txCount, rxCount);
      var ri, cl := ChannelNums(init, txCount, rxCount), ChannelCheck(last, txCount, rxCount);
      assert forall i :: 0 <= i < |init| ==> init[i] == tokens[i];
      if ri.Success? && cl.Success? {
        var r := ChannelNums(tokens, txCount, rxCount);
        assert r.value == ri.value + [cl.value];
        forall i | 0 <= i < |tokens|
          ensures ChannelCheck(tokens[i], txCount, rxCount) == Success(r.value[i])
        {
          if i < |init| {
            assert r.value[i] == ri.value[i];
          }
        }
      }
    }
  }

  /** A rejected list reports the error of its first bad token. */
  lemma {:induction false} ChannelNumsFirstError(tokens: seq<string>, txCount: nat, rxCount: nat)
    ensures var r := ChannelNums(tokens, txCount, rxCount);
            r.Failure? ==> exists i :: FirstBad(tokens, txCount, rxCount, i) && ChannelCheck(tokens[i], txCount, rxCount) == Failure(r.error)
    decreases |tokens|
  {
    if tokens != [] {
      var init, last := tokens[..|tokens| - 1], tokens[|tokens| - 1];
      ChannelNumsFirstError(init, txCount, rxCount);
      var ri := ChannelNums(init, txCount, rxCount);
      if ri.Failure? {
        var i :| FirstBad(init, txCount, rxCount, i) && ChannelCheck(init[i], txCount, rxCount) == Failure(ri.error);
        assert FirstBad(tokens, txCount, rxCount, i) by {
          assert forall j :: 0 <= j <= i ==> init[j] == tokens[j];
        }
      } else if ChannelCheck(last, txCount, rxCount).Failure? {
        ChannelNumsAccepted(init, txCount, rxCount);
        assert FirstBad(tokens, txCount, rxCount, |tokens| - 1) by {
          assert forall j :: 0 <= j < |init| ==> init[j] == tokens[j];
        }
      }
    }
  }

  /** Token i is rejected and every token before it is accepted. */
  predicate FirstBad(tokens: seq<string>, txCount: nat, rxCount: nat, i: int)
  {
    0 <= i < |tokens| && ChannelCheck(tokens[i], txCount, rxCount).Failure?
    && forall j :: 0 <= j < i ==> ChannelCheck(tokens[j], txCount, rxCount).Success?
  }

  /** Checking one more token after an accepted prefix: its error, or its channel appended. */
  lemma ChannelNumsNext(tokens: seq<string>, txCount: nat, rxCount: nat, k: nat)
    requires k < |tokens|
    ensures var check, prev := ChannelCheck(tokens[k], txCount, rxCount), ChannelNums(tokens[..k], txCount, rxCount);
            prev.Success? ==>
              ChannelNums(tokens[..k + 1], txCount, rxCount) ==
                if check.Failure? then Failure(check.error) else Success(prev.value + [check.value])
  {
    assert tokens[..k + 1][..k] == tokens[..k] && tokens[..k + 1][k] == tokens[k];
  }

  /** Tokens that each pass the check give the list of their channels. */
  lemma {:induction false} ChannelNumsOfChecks(tokens: seq<string>, txCount: nat, rxCount: nat, chans: seq<nat>)
    requires |tokens| == |chans|
    requires forall k :: 0 <= k < |tokens| ==> ChannelCheck(tokens[k], txCount, rxCount) == Success(chans[k])
    ensures ChannelNums(tokens, txCount, rxCount) == Success(chans)
    decreases |tokens|
  {
    if tokens != [] {
      var n := |tokens| - 1;
      ChannelNumsOfChecks(tokens[..n], txCount, rxCount, chans[..n]);
      ChannelNumsNext(tokens, txCount, rxCount, n);
      assert tokens[..n + 1] == tokens;
      SnocLast(chans);
    }
  }

  /** Each channel written in decimal. */
  function ShowAll(chans: seq<nat>): (tokens: seq<string>)
    ensures |tokens| == |chans|
  {
    seq(|chans|, k requires 0 <= k < |chans| => ShowNat(chans[k]))
  }

  /** Channels written in decimal and joined with commas parse back to the same channels. */
  lemma ShownChannelsParse(chans: seq<nat>, txCount: nat, rxCount: nat)
    requires |chans| >= 1
    requires forall k :: 0 <= k < |chans| ==> chans[k] < txCount && chans[k] < rxCount && chans[k] <= Int32Max
    ensures ChannelNums(Split(Join(ShowAll(chans), ',')), txCount, rxCount) == Success(chans)
  {
    var tokens := ShowAll(chans);
    forall k | 0 <= k < |tokens|
      ensures Clean(tokens[k]) && ChannelCheck(tokens[k], txCount, rxCount) == Success(chans[k])
    {
      ShowNatDigits(chans[k]);
      ParseShowNat(chans[k]);
    }
    SplitJoin(tokens);
    ChannelNumsOfChecks(tokens, txCount, rxCount, chans);
  }

  /** With at least four channels on each side, the default list "0,1,2,3" selects channels 0 to 3. */
  lemma DefaultChannels(txCount: nat, rxCount: nat)
    requires txCount > 3 && rxCount > 3
    ensures ChannelNums(Split(DefaultOptions.channels), txCount, rxCount) == Success([0, 1, 2, 3])
  {
    var tokens := ShowAll([0, 1, 2, 3]);
    assert tokens[0] == "0" && tokens[1] == "1" && tokens[2] == "2" && tokens[3] == "3";
    assert tokens == ["0", "1", "2", "3"];
    assert Join(tokens, ',') == DefaultOptions.channels;
    ShownChannelsParse([0, 1, 2, 3], txCount, rxCount);
  }

  /** The body of the channel loop for one token: lexical_cast, conversion to size_t, and the range check. */
  method CheckToken(t: string, txCount: nat, rxCount: nat) returns (r: Result<nat, ClientError>)
    ensures r == ChannelCheck(t, txCount, rxCount)
  {
    var parsed := ParseInt(t);
    if parsed.None? {
      return Failure(BadLexicalCast(t));
    }
    var chan := ToSizeT(parsed.value);
    if chan >= txCount || chan >= rxCount {
      return Failure(RuntimeError(InvalidChannelsMessage));
    }
    r := Success(chan);
  }

  /**
   * The channel loop of the client: split the list, and parse and check each
   * token in turn, appending its channel; the first bad token throws.
   */
  method ParseChannels(list: string, txCount: nat, rxCount: nat) returns (r: Result<seq<nat>, ClientError>)
    ensures r == ChannelNums(Split(list), txCount, rxCount)
  {
    var strings := Split(list);
    var nums: seq<nat> := [];
    var ch := 0;
    assert strings[..0] == [];
    while ch < |strings|
      invariant 0 <= ch <= |strings|
      invariant ChannelNums(strings[..ch], txCount, rxCount) == Success(nums)
    {
      ChannelNumsNext(strings, txCount, rxCount, ch);
      var check := CheckToken(strings[ch], txCount, rxCount);
      if check.Failure? {
        r := Failure(check.error);
        ChannelNumsStopped(strings, txCount, rxCount, ch + 1);
        return;
      }
      nums := nums + [check.value];
      ch := ch + 1;
    }
    assert strings[..ch] == strings;
    r := Success(nums);
  }

  /** An accepted channel list is never empty, since splitting gives at least one token. */
  lemma AcceptedListNonEmpty(list: string, txCount: nat, rxCount: nat)
    ensures var r := ChannelNums(Split(list), txCount, rxCount);
            r.Success? ==> |r.value| == |Split(list)| >= 1
  {
    ChannelNumsAccepted(Split(list), txCount, rxCount);
  }

  // ---------------------------------------------------------------------
  // The stream command and the buffers
  // ---------------------------------------------------------------------

  /**
   * The command the client issues: NUM_SAMPS_AND_DONE for total samples;
   * when secs > 0 it is deferred to now + secs, otherwise it keeps the
   * constructor's stream-now and time zero.
   */
  function MakeStreamCmd(total: nat, secs: real, now: real): (cmd: StreamCmd)
    ensures cmd.mode == NumSampsAndDone && cmd.numSamps == total
    ensures !cmd.streamNow <==> secs > 0.0
    ensures cmd.timeSpec == if cmd.streamNow then 0.0 else now + secs
  {
    var cmd := StreamCmd(NumSampsAndDone, total, true, 0.0);
    if secs > 0.0 then cmd.(streamNow := false, timeSpec := now + secs) else cmd
  }

  /** sizeof(std::complex<int16_t>) */
  const ComplexInt16Bytes: nat := 4

  /** One buffer of buffSz complex int16 samples per channel; a buffer is its size in bytes. */
  method AllocateBuffers(numChannels: nat, buffSz: nat) returns (buffs: seq<nat>)
    ensures |buffs| == numChannels
    ensures forall i :: 0 <= i < |buffs| ==> buffs[i] == buffSz * ComplexInt16Bytes
  {
    buffs := [];
    var ch := 0;
    while ch < numChannels
      invariant 0 <= ch <= numChannels && |buffs| == ch
      invariant forall i :: 0 <= i < |buffs| ==> buffs[i] == buffSz * ComplexInt16Bytes
    {
      buffs := buffs + [buffSz * ComplexInt16Bytes];
      ch := ch + 1;
    }
  }

  // ---------------------------------------------------------------------
  // The receive loop
  // ---------------------------------------------------------------------

  /** The timeout of every recv() call after the first. */
  const SubsequentTimeout: real := 0.1

  /** The padding added to the start delay for the first recv() call. */
  const FirstTimeoutPadding: real := 0.1

  /**
   * How the loop ended: enough samples, a timeout, another receive error
   * (which throws), or no further result in the script.
   */
  datatype LoopEnd = Reached | TimedOut | Failed(code: ErrorCode) | Exhausted

  /** How the loop ended, the samples it accumulated and the recv() calls it made. */
  datatype LoopOutcome = LoopOutcome(end: LoopEnd, acc: nat, calls: nat)

  /** The samples a result adds to the count: all of them for ERROR_CODE_NONE, none otherwise. */
  function Counted(res: RecvResult): nat
  {
    if res.errorCode == ErrNone then res.numSamps else 0
  }

  /** The samples results i up to j (excluded) add to the count. */
  function CountedFrom(script: seq<RecvResult>, i: nat, j: nat): nat
    requires i <= j <= |script|
    decreases j - i
  {
    if i == j then 0 else Counted(script[i]) + CountedFrom(script, i + 1, j)
  }

  /**
   * The loop from call k on with acc samples so far: it tests acc against
   * the target before each call, breaks on a timeout, throws on any other
   * error, and otherwise adds the call's samples.
   */
  function Acquire(script: seq<RecvResult>, target: nat, k: nat, acc: nat): (o: LoopOutcome)
    requires k <= |script|
    ensures k <= o.calls <= |script| && acc <= o.acc
    decreases |script| - k
  {
    if acc >= target then LoopOutcome(Reached, acc, k)
    else if k == |script| then LoopOutcome(Exhausted, acc, k)
    else
      match script[k].errorCode
      case ErrNone => Acquire(script, target, k + 1, acc + script[k].numSamps)
      case ErrTimeout => LoopOutcome(TimedOut, acc, k + 1)
      case _ => LoopOutcome(Failed(script[k].errorCode), acc, k + 1)
  }

  /** The calls after which the loop test ran again: all but an erroring last call. */
  function Continued(o: LoopOutcome): int
  {
    if o.end.TimedOut? || o.end.Failed? then o.calls - 1 else o.calls
  }

  /**
   * What the loop's end tells: the calls made, the count, and why it
   * stopped. Enough samples only on Reached; a timeout or an error is the
   * last result consumed, and it adds nothing.
   */
  lemma {:induction false} AcquireEnd(script: seq<RecvResult>, target: nat, k: nat, acc: nat)
    requires k <= |script|
    ensures var o := Acquire(script, target, k, acc);
            k <= o.calls <= |script|
            && o.acc == acc + CountedFrom(script, k, o.calls)
            && (o.end.Reached? <==> o.acc >= target)
            && (o.end.TimedOut? ==> o.calls > k && script[o.calls - 1].errorCode == ErrTimeout)
            && (o.end.Failed? ==> o.calls > k && o.end.code == script[o.calls - 1].errorCode
                                  && o.end.code != ErrNone && o.end.code != ErrTimeout)
            && (o.end.Exhausted? ==> o.calls == |script|)
    decreases |script| - k
  {
    if acc < target && k < |script| && script[k].errorCode == ErrNone {
      AcquireEnd(script, target, k + 1, acc + script[k].numSamps);
    }
  }

  /**
   * The loop goes on exactly while the count is short of the target and the
   * results are ERROR_CODE_NONE: every call before the stopping one returned
   * NONE, and the count was below the target before each of them.
   */
  lemma {:induction false} AcquireContinues(script: seq<RecvResult>, target: nat, k: nat, acc: nat)
    requires k <= |script|
    ensures var o := Acquire(script, target, k, acc);
            k <= Continued(o) <= o.calls <= |script|
            && forall j :: k <= j < Continued(o) ==>
                 script[j].errorCode == ErrNone && acc + CountedFrom(script, k, j) < target
    decreases |script| - k
  {
    var o := Acquire(script, target, k, acc);
    AcquireEnd(script, target, k, acc);
    if acc < target && k < |script| && script[k].errorCode == ErrNone {
      var acc' := acc + script[k].numSamps;
      AcquireContinues(script, target, k + 1, acc');
      AcquireEnd(script, target, k + 1, acc');
      forall j | k + 1 <= j < Continued(o)
        ensures acc + CountedFrom(script, k, j) == acc' + CountedFrom(script, k + 1, j)
      {
      }
    }
  }

  /**
   * The receive loop of the client. Each recv() consumes the next result of
   * the script and is passed the current timeout: the first call gets
   * firstTimeout, every later one SubsequentTimeout.
   */
  method AccumulateSamples(script: seq<RecvResult>, target: nat, firstTimeout: real)
    returns (o: LoopOutcome, timeouts: seq<real>)
    ensures o == Acquire(script, target, 0, 0)
    ensures |timeouts| == o.calls
    ensures forall i :: 0 <= i < |timeouts| ==> timeouts[i] == if i == 0 then firstTimeout else SubsequentTimeout
  {
    var acc: nat, k: nat := 0, 0;
    var timeout := firstTimeout;
    timeouts := [];
    while acc < target
      invariant k <= |script| && |timeouts| == k
      invariant Acquire(script, target, k, acc) == Acquire(script, target, 0, 0)
      invariant timeout == if k == 0 then firstTimeout else SubsequentTimeout
      invariant forall i :: 0 <= i < k ==> timeouts[i] == if i == 0 then firstTimeout else SubsequentTimeout
      decreases |script| - k
    {
      if k == |script| {
        o := LoopOutcome(Exhausted, acc, k);
        return;
      }
      var res := script[k];
      timeouts := timeouts + [timeout];
      k := k + 1;
      timeout := SubsequentTimeout;
      if res.errorCode == ErrTimeout {
        o := LoopOutcome(TimedOut, acc, k);
        return;
      }
      if res.errorCode != ErrNone {
        o := LoopOutcome(Failed(res.errorCode), acc, k);
        return;
      }
      acc := acc + res.numSamps;
    }
    o := LoopOutcome(Reached, acc, k);
  }

  // ---------------------------------------------------------------------
  // The loop target and the shortfall warning
  // ---------------------------------------------------------------------

  /** The loop target as the client writes it: the requested count times the number of buffers. */
  function AsWrittenTarget(total: nat, numBuffs: nat): nat
  {
    total * numBuffs
  }

  /**
   * The loop target the client evidently means: the count it asked the
   * device for, per channel, which recv() also counts per channel.
   */
  function LoopTarget(total: nat, numBuffs: nat): nat
  {
    total
  }

  /**
   * With one channel the target as written is the count the stream command
   * asks for; with two or more it exceeds that count whenever any samples
   * are asked for.
   */
  lemma AsWrittenTargetExceeds(total: nat, numBuffs: nat, secs: real, now: real)
    ensures numBuffs == 1 ==> AsWrittenTarget(total, numBuffs) == MakeStreamCmd(total, secs, now).numSamps
    ensures numBuffs >= 2 && total > 0 ==> AsWrittenTarget(total, numBuffs) > MakeStreamCmd(total, secs, now).numSamps
  {
    if numBuffs >= 2 && total > 0 {
      assert total * numBuffs >= total * 2;
    }
  }

  /** The corrected target is the count the stream command asks the device for, whatever the number of channels. */
  lemma LoopTargetMatchesCommand(total: nat, numBuffs: nat, secs: real, now: real)
    ensures LoopTarget(total, numBuffs) == MakeStreamCmd(total, secs, now).numSamps
  {
  }

  /** The warning "Receive timeout before all samples received...". */
  predicate Shortfall(acc: nat, total: nat)
  {
    acc < total
  }

  /**
   * With the target as written, two channels and a device that delivers the
   * ten samples per channel it was asked for and then times out, the loop
   * ends on the timeout although its target was never met, and yet no
   * warning is given.
   */
  lemma AsWrittenSilentTimeout()
    ensures var script := [RecvResult(10, ErrNone), RecvResult(0, ErrTimeout)];
            var o := Acquire(script, AsWrittenTarget(10, 2), 0, 0);
            o.end == TimedOut && o.acc == 10 && o.acc < AsWrittenTarget(10, 2) && !Shortfall(o.acc, 10)
  {
    var script := [RecvResult(10, ErrNone), RecvResult(0, ErrTimeout)];
    assert Acquire(script, 20, 1, 10) == LoopOutcome(TimedOut, 10, 2);
  }

  /** With the corrected target the same device finishes on the first call, with no warning. */
  lemma CorrectedTargetReached()
    ensures var script := [RecvResult(10, ErrNone), RecvResult(0, ErrTimeout)];
            Acquire(script, LoopTarget(10, 2), 0, 0) == LoopOutcome(Reached, 10, 1)
  {
    var script := [RecvResult(10, ErrNone), RecvResult(0, ErrTimeout)];
    assert Acquire(script, 10, 1, 10) == LoopOutcome(Reached, 10, 1);
  }

  /**
   * With the corrected target, whenever the loop ends normally (the target
   * met or a timeout) the warning is given exactly when the loop timed out,
   * that is, exactly when fewer samples than requested arrived.
   */
  lemma CorrectedWarningIffTimedOut(script: seq<RecvResult>, total: nat, numBuffs: nat)
    ensures var o := Acquire(script, LoopTarget(total, numBuffs), 0, 0);
            (o.end.Reached? || o.end.TimedOut?) ==> (Shortfall(o.acc, total) <==> o.end.TimedOut?)
  {
    AcquireEnd(script, LoopTarget(total, numBuffs), 0, 0);
  }

  // ---------------------------------------------------------------------
  // The client
  // ---------------------------------------------------------------------

  /** The options the client reads; those it only prints or passes to the device are left out. */
  datatype Options = Options(help: bool, secs: real, nsamps: nat, channels: string)

  /** The defaults: 1.5 seconds in the future, 10000 samples, channels "0,1,2,3". */
  const DefaultOptions: Options := Options(false, 1.5, 10000, "0,1,2,3")

  /** ~0 as the int main returns */
  const HelpExitCode: int := -1

  /** EXIT_SUCCESS */
  const ExitSuccess: int := 0

  datatype ClientOutcome =
    | HelpShown
    | Raised(error: ClientError)
    | Finished(received: nat, warned: bool)
    | ScriptExhausted(received: nat)

  /** What main returns; an exception leaves main and has no code here. */
  function ExitCode(out: ClientOutcome): (code: Option<int>)
    ensures out.HelpShown? ==> code == Some(HelpExitCode)
    ensures out.Finished? ==> code == Some(ExitSuccess)
    ensures out.Raised? || out.ScriptExhausted? ==> code.None?
  {
    match out
    case HelpShown => Some(HelpExitCode)
    case Finished(_, _) => Some(ExitSuccess)
    case _ => None
  }

  /** How the client ends once the receive loop has: a receiver error throws, otherwise it finishes. */
  function ClientResult(a: LoopOutcome, total: nat): (out: ClientOutcome)
    ensures a.end.Failed? <==> out.Raised?
    ensures out.Finished? ==> out.received == a.acc && (out.warned <==> a.acc < total)
    ensures a.end.Reached? || a.end.TimedOut? ==> out == Finished(a.acc, a.acc < total)
    ensures a.end.Exhausted? ==> out == ScriptExhausted(a.acc)
  {
    match a.end
    case Reached => Finished(a.acc, Shortfall(a.acc, total))
    case TimedOut => Finished(a.acc, Shortfall(a.acc, total))
    case Failed(code) => Raised(ReceiverError(code))
    case Exhausted => ScriptExhausted(a.acc)
  }

  /** main returns EXIT_SUCCESS exactly when the receive loop ends normally, on its target or on a timeout. */
  lemma ClientExitsSuccess(a: LoopOutcome, total: nat)
    ensures ExitCode(ClientResult(a, total)) == Some(ExitSuccess) <==> a.end.Reached? || a.end.TimedOut?
  {
  }

  /**
   * The client from the stream command on: issue the command, allocate one
   * buffer per channel of the streamer's packet size, run the receive loop
   * with the target as written, and report.
   */
  method Receive(rx: Streamer, total: nat, secs: real, now: real, script: seq<RecvResult>)
    returns (out: ClientOutcome, buffs: seq<nat>, timeouts: seq<real>)
    requires rx.Valid()
    modifies rx`issued
    ensures rx.issued == old(rx.issued) + [MakeStreamCmd(total, secs, now)]
    ensures var a := Acquire(script, AsWrittenTarget(total, |rx.buffSources|), 0, 0);
            |buffs| == |rx.buffSources|
            && (forall i :: 0 <= i < |buffs| ==> buffs[i] == rx.maxNumSamps * ComplexInt16Bytes)
            && |timeouts| == a.calls
            && (forall i :: 0 <= i < |timeouts| ==>
                  timeouts[i] == if i == 0 then secs + FirstTimeoutPadding else SubsequentTimeout)
            && out == ClientResult(a, total)
  {
    rx.IssueStreamCmd(MakeStreamCmd(total, secs, now));
    var buffSz := rx.GetMaxNumSamps();
    var numChannels := rx.GetNumChannels();
    buffs := AllocateBuffers(numChannels, buffSz);
    var a;
    a, timeouts := AccumulateSamples(script, AsWrittenTarget(total, |buffs|), secs + FirstTimeoutPadding);
    out := ClientResult(a, total);
  }

  /**
   * The client's main body against a device. The device's channel counts,
   * its clock and the results recv() hands back are parameters.
   */
  method RunClient(dev: CrimsonTngImpl, opts: Options, txCount: nat, rxCount: nat, now: real,
                   script: seq<RecvResult>)
    returns (out: ClientOutcome, rx: Streamer?, buffs: seq<nat>, timeouts: seq<real>)
    requires dev.Valid()
    modifies dev, dev.tree
    ensures opts.help ==>
              out == HelpShown && unchanged(dev, dev.tree) && rx == null && buffs == [] && timeouts == []
    ensures !opts.help ==>
              var parsed := ChannelNums(Split(opts.channels), txCount, rxCount);
              (parsed.Failure? ==>
                 out == Raised(parsed.error) && unchanged(dev, dev.tree) && rx == null && buffs == [] && timeouts == [])
              && (parsed.Success? ==>
                    var o := BindRun(old(dev.tree.entries), parsed.value);
                    dev.rxChannels == parsed.value
                    && dev.tree.entries == o.entries && dev.tree.log == old(dev.tree.log) + o.log
                    && (o.missing.Some? ==> out == Raised(DeviceError(PathNotFound(o.missing.value))))
                    && (o.missing.None? ==>
                          var spp := SamplesPerPacket(PacketBytes(dev.hdrSize), dev.bytesPerItem, None);
                          var a := Acquire(script, AsWrittenTarget(opts.nsamps, |parsed.value|), 0, 0);
                          rx != null && rx.maxNumSamps == spp && rx.issued == [MakeStreamCmd(opts.nsamps, opts.secs, now)]
                          && |buffs| == |parsed.value|
                          && (forall i :: 0 <= i < |buffs| ==> buffs[i] == spp * ComplexInt16Bytes)
                          && |timeouts| == a.calls
                          && (forall i :: 0 <= i < |timeouts| ==>
                                timeouts[i] == if i == 0 then opts.secs + FirstTimeoutPadding else SubsequentTimeout)
                          && out == ClientResult(a, opts.nsamps)))
  {
    rx, buffs, timeouts := null, [], [];
    if opts.help {
      out := HelpShown;
      return;
    }
    var nums := ParseChannels(opts.channels, txCount, rxCount);
    if nums.Failure? {
      out := Raised(nums.error);
      return;
    }
    AcceptedListNonEmpty(opts.channels, txCount, rxCount);
    var stream := dev.GetRxStream(StreamArgs("sc16", "sc16", nums.value, None));
    if stream.Failure? {
      out := Raised(DeviceError(stream.error));
      return;
    }
    rx := stream.value;
    out, buffs, timeouts := Receive(rx, opts.nsamps, opts.secs, now, script);
  }
}
