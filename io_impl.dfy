/**
 * crimson_tng_impl::get_rx_stream: builds the receive streamer for a list of
 * channels. For each channel it reads the channel's network endpoint from the
 * property tree, powers the channel on and enables VITA framing and streaming
 * (three writes of "1"), and makes one UDP transport; then it makes one
 * streamer, gives it the sc16 converter and binds every channel to it.
 */
module CrimsonIo {
  import opened Wrappers
  import opened PropertyTree
  import opened Streaming

  /** Jumbo-frame size every packet is carved from, in bytes. */
  const JumboFrameSize: nat := 9000
  /** DEFAULT_NUM_FRAMES: receive frames per transport. */
  const DefaultNumFrames: nat := 32
  const MbPath: string := "/mboards/0"
  const LinkPath: string := MbPath + "/rx_link"
  const RxPath: string := MbPath + "/rx"
  /** The value written to every power and enable entry. */
  const On: string := "1"
  /** The constant third and fourth arguments of every transport. */
  const AddrArg: string := "127.0.0.1"
  const PortArg: string := "1"

  /**
   * stream_args_t as get_rx_stream uses it. `spp` is the "spp" entry of the
   * argument dictionary, already read as a number.
   */
  datatype StreamArgs = StreamArgs(cpuFormat: string, otwFormat: string, channels: seq<nat>, spp: Option<real>)

  /** The defaults get_rx_stream fills in before doing anything else. */
  function WithDefaults(args: StreamArgs): (r: StreamArgs)
    ensures r.otwFormat == "sc16"
    ensures r.cpuFormat == args.cpuFormat && r.spp == args.spp
    ensures |r.channels| >= 1
    ensures args.channels != [] ==> r.channels == args.channels
    ensures args.channels == [] ==> r.channels == [0]
  {
    args.(otwFormat := "sc16", channels := if args.channels == [] then [0] else args.channels)
  }

  /** Payload bytes per packet: the jumbo frame less the VITA header and trailer. */
  function PacketBytes(hdrSize: nat): (bpp: nat)
    requires hdrSize <= JumboFrameSize
    ensures bpp + hdrSize == JumboFrameSize
  {
    JumboFrameSize - hdrSize
  }

  /**
   * The doubles that `unsigned(...)` converts without undefined behaviour:
   * those whose value truncated toward zero fits in 32 bits.
   */
  predicate InUnsignedRange(x: real)
  {
    -1.0 < x < 4294967296.0
  }

  /**
   * Samples per packet: the "spp" argument truncated toward zero to unsigned
   * when given, otherwise as many whole items as fit in a packet.
   */
  function SamplesPerPacket(bpp: nat, bpi: nat, spp: Option<real>): (r: nat)
    requires bpi > 0
    requires spp.Some? ==> InUnsignedRange(spp.value)
    ensures spp.Some? && spp.value >= 0.0 ==> r as real <= spp.value < r as real + 1.0
    ensures spp.Some? && spp.value < 0.0 ==> r == 0
    ensures spp.None? ==> r * bpi <= bpp < (r + 1) * bpi
  {
    match spp
    case Some(x) => if x < 0.0 then 0 else x.Floor
    case None => bpp / bpi
  }

  /** The zero-copy parameters of every receive transport. */
  function RxXportParams(bpp: nat): XportParams
  {
    XportParams(sendFrameSize := 0, recvFrameSize := bpp, numSendFrames := 0, numRecvFrames := DefaultNumFrames)
  }

  /** The converter: wire format as big-endian 32-bit items into the host format, one to one. */
  function RxConverter(otwFormat: string, cpuFormat: string): ConvertId
  {
    ConvertId(otwFormat + "_item32_be", 1, cpuFormat, 1)
  }

  /**
   * Every receive transport receives only, into DEFAULT_NUM_FRAMES frames
   * that each hold one whole packet of the jumbo frame.
   */
  lemma RxFramesHoldPacket(hdrSize: nat)
    requires hdrSize <= JumboFrameSize
    ensures var p := RxXportParams(PacketBytes(hdrSize));
            p.recvFrameSize + hdrSize == JumboFrameSize && p.numRecvFrames == 32
            && p.sendFrameSize == 0 && p.numSendFrames == 0
  {
  }

  /**
   * Whatever wire format the caller names, the converter takes big-endian
   * sc16 items into the caller's host format, one buffer to one.
   */
  lemma RxConverterIsSc16(args: StreamArgs)
    ensures RxConverter(WithDefaults(args).otwFormat, args.cpuFormat) == ConvertId("sc16_item32_be", 1, args.cpuFormat, 1)
  {
  }

  /** std::string(1, c + 'A'): the channel index as a letter, truncated to 8 bits. */
  function ChannelLetter(c: nat): char
  {
    ((c + 'A' as int) % 256) as char
  }

  /** (char)('a' + c): the letter of the channel's stream-command key. */
  function StreamLetter(c: nat): char
  {
    ((c + 'a' as int) % 256) as char
  }

  function ChannelDir(base: string, c: nat): string
  {
    base + "/Channel_" + [ChannelLetter(c)]
  }

  function PortPath(c: nat): string { ChannelDir(LinkPath, c) + "/port" }
  function IpDestPath(c: nat): string { ChannelDir(LinkPath, c) + "/ip_dest" }
  function IfacePath(c: nat): string { ChannelDir(LinkPath, c) + "/iface" }
  function PwrPath(c: nat): string { ChannelDir(RxPath, c) + "/pwr" }
  function VitaEnPath(c: nat): string { ChannelDir(LinkPath, c) + "/vita_en" }
  function StreamPath(c: nat): string { ChannelDir(LinkPath, c) + "/stream" }

  /** The key set_stream_cmd is bound to for channel c. */
  function StreamCmdKey(c: nat): string
  {
    "rx_" + [StreamLetter(c)] + "/stream"
  }

  /** The reads of a channel's endpoint, in order. */
  function ReadOps(c: nat): seq<Access>
  {
    [Get(PortPath(c)), Get(IpDestPath(c)), Get(IfacePath(c))]
  }

  /** The writes that power a channel on and enable its stream, in order. */
  function EnableOps(c: nat): seq<Access>
  {
    [Set(PwrPath(c), On), Set(VitaEnPath(c), On), Set(StreamPath(c), On)]
  }

  /** The tree accesses for one channel, in the order they are made. */
  function ChannelOps(c: nat): seq<Access>
  {
    ReadOps(c) + EnableOps(c)
  }

  /** The tree accesses for a channel list, channel after channel. */
  function BindPlan(chs: seq<nat>): seq<Access>
    decreases |chs|
  {
    if chs == [] then [] else BindPlan(chs[..|chs| - 1]) + ChannelOps(chs[|chs| - 1])
  }

  function WritePaths(c: nat): set<string>
  {
    {PwrPath(c), VitaEnPath(c), StreamPath(c)}
  }

  /** p is one of the entries the binding writes for some channel of chs. */
  predicate IsWritePath(p: string, chs: seq<nat>)
  {
    exists i :: 0 <= i < |chs| && p in WritePaths(chs[i])
  }

  /** The endpoint triple read from the tree: port, destination address, interface. */
  datatype Endpoint = Endpoint(port: string, ipDest: string, iface: string)

  predicate EndpointReadable(m: map<string, string>, c: nat)
  {
    PortPath(c) in m && IpDestPath(c) in m && IfacePath(c) in m
  }

  function StoredEndpoint(m: map<string, string>, c: nat): Endpoint
    requires EndpointReadable(m, c)
  {
    Endpoint(m[PortPath(c)], m[IpDestPath(c)], m[IfacePath(c)])
  }

  /** The transport made for channel c from the endpoint stored in the tree. */
  function ChannelTransport(m: map<string, string>, c: nat, params: XportParams): Transport
    requires EndpointReadable(m, c)
  {
    Transport(m[IpDestPath(c)], m[PortPath(c)], AddrArg, PortArg, params)
  }

  /** Slot holds the transport of channel c, whose endpoint is in the tree. */
  predicate SlotBound(m: map<string, string>, c: nat, slot: Option<Transport>, params: XportParams)
  {
    EndpointReadable(m, c) && slot == Some(ChannelTransport(m, c, params))
  }

  /** Channel k is the one whose accesses failed: the channels before it all bound cleanly. */
  predicate FailedAt(m: map<string, string>, chs: seq<nat>, k: int)
  {
    0 <= k < |chs| && BindRun(m, chs[..k]).missing.None? && BindRun(m, chs[..k + 1]).missing.Some?
  }

  /**
   * The _rx_if slots after the binding stopped at channel k: the channels
   * before k hold their transports, and every later slot is as the resize
   * of the old slots left it.
   */
  predicate SlotsAfterFailure(m: map<string, string>, chs: seq<nat>, k: nat, before: seq<Option<Transport>>,
                              slots: seq<Option<Transport>>, params: XportParams)
    requires k <= |chs| == |slots|
  {
    (forall j :: 0 <= j < k ==> SlotBound(m, chs[j], slots[j], params))
    && (forall j :: k <= j < |chs| ==> slots[j] == Resized(before, |chs|, None)[j])
  }

  // ---------------------------------------------------------------------
  // Letters and paths

  /** Channels 0 to 25 are the letters A to Z, and the command key uses the same letter in lower case. */
  lemma ChannelLetters(c: nat)
    requires c < 26
    ensures 'A' <= ChannelLetter(c) <= 'Z'
    ensures ChannelLetter(c) as int == 'A' as int + c
    ensures StreamLetter(c) as int == ChannelLetter(c) as int + 32
  {
  }

  /** No index check: channel c + 256 names the same entries as channel c. */
  lemma ChannelAliasing(c: nat)
    ensures ChannelOps(c + 256) == ChannelOps(c)
    ensures StreamCmdKey(c + 256) == StreamCmdKey(c)
  {
    assert ChannelLetter(c + 256) == ChannelLetter(c);
    assert StreamLetter(c + 256) == StreamLetter(c);
  }

  lemma DirShape(base: string, c: nat)
    ensures |ChannelDir(base, c)| == |base| + 10
    ensures ChannelDir(base, c)[|base| + 9] == ChannelLetter(c)
    ensures ChannelDir(base, c)[..|base|] == base
  {
  }

  /** Each path ends in its own field name after the channel's directory. */
  lemma PathShapes(c: nat)
    ensures |PortPath(c)| == 33 && |IpDestPath(c)| == 36 && |IfacePath(c)| == 34
    ensures |PwrPath(c)| == 27 && |VitaEnPath(c)| == 36 && |StreamPath(c)| == 35
    ensures IpDestPath(c)[29] == 'i' && VitaEnPath(c)[29] == 'v'
    ensures PwrPath(c)[22] == ChannelLetter(c) && VitaEnPath(c)[27] == ChannelLetter(c)
    ensures StreamPath(c)[27] == ChannelLetter(c)
  {
    DirShape(LinkPath, c);
    DirShape(RxPath, c);
  }

  /** The endpoint entries that are read are never among those written, for any two channels. */
  lemma {:induction false} ReadsNotWritten(c: nat, d: nat)
    ensures PortPath(c) !in WritePaths(d) && IpDestPath(c) !in WritePaths(d)
  {
    PathShapes(c);
    PathShapes(d);
    assert IpDestPath(c)[29] != VitaEnPath(d)[29];
  }

  /** Adding k below 256 to c shifts c's residue modulo 256, wrapping once at most. */
  lemma ShiftMod(c: nat, k: nat)
    requires k < 256
    ensures (c + k) % 256 == if c % 256 + k < 256 then c % 256 + k else c % 256 + k - 256
  {
    var q, r := c / 256, c % 256;
    assert c + k == 256 * q + (r + k);
    if r + k >= 256 {
      assert c + k == 256 * (q + 1) + (r + k - 256);
    }
  }

  /** Two channels have the same letters exactly when their indices agree modulo 256. */
  lemma LettersModulo(c: nat, d: nat)
    ensures ChannelLetter(c) == ChannelLetter(d) <==> c % 256 == d % 256
    ensures StreamLetter(c) == StreamLetter(d) <==> c % 256 == d % 256
  {
    ShiftMod(c, 'A' as int);
    ShiftMod(d, 'A' as int);
    ShiftMod(c, 'a' as int);
    ShiftMod(d, 'a' as int);
  }

  /**
   * Two channels write the same entries and get the same command key exactly
   * when their indices agree modulo 256; otherwise their entries are disjoint.
   */
  lemma {:induction false} DistinctChannelsDistinctPaths(c: nat, d: nat)
    ensures WritePaths(c) !! WritePaths(d) <==> c % 256 != d % 256
    ensures StreamCmdKey(c) != StreamCmdKey(d) <==> c % 256 != d % 256
  {
    PathShapes(c);
    PathShapes(d);
    LettersModulo(c, d);
    if c % 256 != d % 256 {
      assert PwrPath(c)[22] != PwrPath(d)[22];
      assert VitaEnPath(c)[27] != VitaEnPath(d)[27];
      assert StreamPath(c)[27] != StreamPath(d)[27];
      assert StreamCmdKey(c)[3] != StreamCmdKey(d)[3];
    } else {
      assert PwrPath(c) == PwrPath(d);
      assert PwrPath(c) in WritePaths(c) * WritePaths(d);
    }
  }

  // ---------------------------------------------------------------------
  // The access plan

  lemma {:induction false} BindPlanLength(chs: seq<nat>)
    ensures |BindPlan(chs)| == 6 * |chs|
    decreases |chs|
  {
    if chs != [] {
      BindPlanLength(chs[..|chs| - 1]);
    }
  }

  lemma {:induction false} BindPlanAppend(a: seq<nat>, b: seq<nat>)
    ensures BindPlan(a + b) == BindPlan(a) + BindPlan(b)
    decreases |b|
  {
    if b == [] {
      assert a + b == a;
    } else {
      var b', c := b[..|b| - 1], b[|b| - 1];
      assert (a + b)[..|a + b| - 1] == a + b' && (a + b)[|a + b| - 1] == c;
      BindPlanAppend(a, b');
      AppendAssoc(BindPlan(a), BindPlan(b'), ChannelOps(c));
    }
  }

  lemma BindPlanPrefix(chs: seq<nat>, i: nat)
    requires i < |chs|
    ensures BindPlan(chs[..i + 1]) == BindPlan(chs[..i]) + ChannelOps(chs[i])
  {
    assert chs[..i + 1][..i] == chs[..i];
  }

  /**
   * The order of the accesses: channel i's six accesses, in ChannelOps order,
   * sit at positions 6i to 6i + 5.
   */
  lemma {:induction false} BindPlanOrder(chs: seq<nat>, i: nat, j: nat)
    requires i < |chs| && j < 6
    ensures |BindPlan(chs)| == 6 * |chs|
    ensures BindPlan(chs)[6 * i + j] == ChannelOps(chs[i])[j]
  {
    BindPlanLength(chs);
    BindPlanLength(chs[..i]);
    BindPlanPrefix(chs, i);
    SplitAt(chs, i + 1);
    BindPlanAppend(chs[..i + 1], chs[i + 1..]);
  }

  /** Every write of the plan stores "1" into a power or enable entry of a listed channel. */
  lemma {:induction false} BindPlanWrites(chs: seq<nat>, n: nat)
    requires n < |BindPlan(chs)|
    ensures BindPlan(chs)[n].Set? ==> BindPlan(chs)[n].value == On && IsWritePath(BindPlan(chs)[n].path, chs)
    ensures BindPlan(chs)[n].Get? ==> exists i :: 0 <= i < |chs| && BindPlan(chs)[n].path in {PortPath(chs[i]), IpDestPath(chs[i]), IfacePath(chs[i])}
  {
    BindPlanLength(chs);
    var i, j := n / 6, n % 6;
    BindPlanOrder(chs, i, j);
    assert 6 * i + j == n;
  }

  // ---------------------------------------------------------------------
  // The effect of the plan on the tree

  /** One channel: its three entries become "1" and nothing else is written. */
  lemma ChannelLastWrite(c: nat, p: string, d: string)
    ensures LastWrite(ChannelOps(c), p, d) == if p in WritePaths(c) then On else d
  {
    var ops := ChannelOps(c);
    assert ops[..0] == [];
    assert LastWrite(ops[..1], p, d) == d;
    assert ops[..2][..1] == ops[..1];
    assert LastWrite(ops[..2], p, d) == d;
    assert ops[..3][..2] == ops[..2];
    assert LastWrite(ops[..3], p, d) == d;
    assert ops[..4][..3] == ops[..3];
    var l4 := LastWrite(ops[..4], p, d);
    assert l4 == if p == PwrPath(c) then On else d;
    assert ops[..5][..4] == ops[..4];
    var l5 := LastWrite(ops[..5], p, d);
    assert l5 == if p == VitaEnPath(c) then On else l4;
    assert ops[..6] == ops;
    assert ops[..6][..5] == ops[..5];
    assert LastWrite(ops, p, d) == if p == StreamPath(c) then On else l5;
  }

  /** A write path of a non-empty list is one of its prefix's or one of its last channel's. */
  lemma IsWritePathSnoc(p: string, chs: seq<nat>)
    requires chs != []
    ensures IsWritePath(p, chs) <==>
              IsWritePath(p, chs[..|chs| - 1]) || p in WritePaths(chs[|chs| - 1])
  {
    var init := chs[..|chs| - 1];
    if IsWritePath(p, init) {
      var i :| 0 <= i < |init| && p in WritePaths(init[i]);
      assert chs[i] == init[i];
    }
    if IsWritePath(p, chs) {
      var i :| 0 <= i < |chs| && p in WritePaths(chs[i]);
      if i < |init| {
        assert init[i] == chs[i];
      }
    }
  }

  lemma {:induction false} BindPlanLastWrite(chs: seq<nat>, p: string, d: string)
    ensures LastWrite(BindPlan(chs), p, d) == if IsWritePath(p, chs) then On else d
    decreases |chs|
  {
    if chs != [] {
      var init, c := chs[..|chs| - 1], chs[|chs| - 1];
      assert BindPlan(chs) == BindPlan(init) + ChannelOps(c);
      BindPlanLastWrite(init, p, d);
      LastWriteAppend(BindPlan(init), ChannelOps(c), p, d);
      ChannelLastWrite(c, p, LastWrite(BindPlan(init), p, d));
      IsWritePathSnoc(p, chs);
    }
  }

  /**
   * The whole binding: an entry of the tree ends as "1" exactly when it is a
   * power or enable entry of a listed channel; every other entry keeps its value.
   */
  lemma BindPlanEffect(m: map<string, string>, chs: seq<nat>, p: string)
    requires p in m
    ensures Applied(m, BindPlan(chs))[p] == if IsWritePath(p, chs) then On else m[p]
  {
    AppliedAt(m, BindPlan(chs), p);
    BindPlanLastWrite(chs, p, m[p]);
  }

  /** The run of a channel's three reads: the entries stay as they are. */
  lemma ReadRun(m: map<string, string>, c: nat)
    ensures RunAccesses(m, ReadOps(c)) ==
              if PortPath(c) !in m then Run(m, [], Some(PortPath(c)))
              else if IpDestPath(c) !in m then Run(m, [Get(PortPath(c))], Some(IpDestPath(c)))
              else if IfacePath(c) !in m then Run(m, [Get(PortPath(c)), Get(IpDestPath(c))], Some(IfacePath(c)))
              else Run(m, ReadOps(c), None)
  {
    var ops := ReadOps(c);
    assert ops[..1][..0] == [];
    assert ops[..2][..1] == ops[..1];
    assert ops[..3] == ops;
    assert RunAccesses(m, ops[..1]) ==
      if PortPath(c) !in m then Run(m, [], Some(PortPath(c))) else Run(m, [Get(PortPath(c))], None);
  }

  /** The run of a channel's three writes of "1". */
  lemma EnableRun(m: map<string, string>, c: nat)
    ensures var p1, p2, p3 := PwrPath(c), VitaEnPath(c), StreamPath(c);
            RunAccesses(m, EnableOps(c)) ==
              if p1 !in m then Run(m, [], Some(p1))
              else if p2 !in m then Run(m[p1 := On], [Set(p1, On)], Some(p2))
              else if p3 !in m then Run(m[p1 := On][p2 := On], [Set(p1, On), Set(p2, On)], Some(p3))
              else Run(m[p1 := On][p2 := On][p3 := On], EnableOps(c), None)
  {
    var ops := EnableOps(c);
    assert ops[..1][..0] == [];
    assert ops[..2][..1] == ops[..1];
    assert ops[..3] == ops;
    assert RunAccesses(m, ops[..1]) ==
      if PwrPath(c) !in m then Run(m, [], Some(PwrPath(c))) else Run(m[PwrPath(c) := On], [Set(PwrPath(c), On)], None);
  }

  /** A channel's run, told in two halves: its reads, then, when they all succeed, its writes. */
  function ChannelOutcome(m: map<string, string>, c: nat): Run
  {
    var ro := RunAccesses(m, ReadOps(c));
    if ro.missing.Some? then ro else Chain(ro, RunAccesses(m, EnableOps(c)))
  }

  /** The two halves make up the run of the channel's six accesses; the reads change no entry. */
  lemma ChannelRun(m: map<string, string>, c: nat)
    ensures RunAccesses(m, ReadOps(c)).entries == m
    ensures RunAccesses(m, ChannelOps(c)) == ChannelOutcome(m, c)
  {
    RunAppend(m, ReadOps(c), EnableOps(c));
    ReadRun(m, c);
  }

  /**
   * Where the binding of a channel list stops: the accesses made are the
   * plan's, in the plan's order, up to the first entry missing from the
   * tree, which is the one reported.
   */
  lemma BindingStops(m: map<string, string>, chs: seq<nat>)
    ensures var plan, o := BindPlan(chs), RunAccesses(m, BindPlan(chs));
            |o.log| == FirstMissing(m.Keys, plan) && o.log == plan[..|o.log|]
            && (o.missing.None? <==> o.log == plan)
            && (o.missing.Some? ==> |o.log| < |plan| && o.missing.value == plan[|o.log|].path && o.missing.value !in m)
  {
    var plan := BindPlan(chs);
    var o := RunAccesses(m, plan);
    RunLogPrefix(m, plan);
    RunStopsAtFirstMissing(m, plan);
    var k := FirstMissing(m.Keys, plan);
    assert |o.log| == k;
    if o.missing.None? {
      assert o.log == plan[..|plan|] == plan;
    } else {
      assert k < |plan| && o.missing.value == plan[k].path;
      assert plan[k].path !in m.Keys;
    }
  }

  /**
   * What a complete binding leaves in the tree: the power and enable entries
   * of the listed channels hold "1" and every other entry keeps its value.
   */
  lemma BindingEffect(m: map<string, string>, chs: seq<nat>, p: string)
    requires RunAccesses(m, BindPlan(chs)).missing.None?
    ensures var e := RunAccesses(m, BindPlan(chs)).entries;
            (p in e <==> p in m) && (p in m ==> e[p] == if IsWritePath(p, chs) then On else m[p])
  {
    var plan := BindPlan(chs);
    RunLogPrefix(m, plan);
    RunEntries(m, plan);
    assert plan[..|plan|] == plan;
    if p in m {
      BindPlanEffect(m, chs, p);
    }
  }

  /** The plan splits at any channel index. */
  lemma PlanSplit(chs: seq<nat>, k: nat)
    requires k <= |chs|
    ensures BindPlan(chs) == BindPlan(chs[..k]) + BindPlan(chs[k..])
  {
    SplitAt(chs, k);
    BindPlanAppend(chs[..k], chs[k..]);
  }

  /** Binding a clean prefix leaves every channel's endpoint entries as they were. */
  lemma EndpointKept(m: map<string, string>, done: seq<nat>, c: nat)
    requires RunAccesses(m, BindPlan(done)).missing.None?
    ensures var e := RunAccesses(m, BindPlan(done)).entries;
            (EndpointReadable(e, c) <==> EndpointReadable(m, c))
            && (EndpointReadable(m, c) ==> e[PortPath(c)] == m[PortPath(c)] && e[IpDestPath(c)] == m[IpDestPath(c)])
  {
    var plan := BindPlan(done);
    RunLogPrefix(m, plan);
    RunEntries(m, plan);
    assert plan[..|plan|] == plan;
    if EndpointReadable(m, c) {
      forall j | 0 <= j < |done| ensures PortPath(c) !in WritePaths(done[j]) && IpDestPath(c) !in WritePaths(done[j]) {
        ReadsNotWritten(c, done[j]);
      }
      BindPlanEffect(m, done, PortPath(c));
      BindPlanEffect(m, done, IpDestPath(c));
    }
  }

  /**
   * The binding loop, channel by channel: each channel's run continues from
   * the entries the earlier channels left, and the first failure ends it.
   */
  function BindRun(m: map<string, string>, chs: seq<nat>): Run
    decreases |chs|
  {
    if chs == [] then Run(m, [], None)
    else
      var o := BindRun(m, chs[..|chs| - 1]);
      if o.missing.Some? then o else Chain(o, ChannelOutcome(o.entries, chs[|chs| - 1]))
  }

  /** The channel-by-channel loop makes exactly the accesses of the flat plan, with the same outcome. */
  lemma {:induction false} BindRunIsPlanRun(m: map<string, string>, chs: seq<nat>)
    ensures BindRun(m, chs) == RunAccesses(m, BindPlan(chs))
    decreases |chs|
  {
    if chs != [] {
      var init, c := chs[..|chs| - 1], chs[|chs| - 1];
      BindRunIsPlanRun(m, init);
      RunAppend(m, BindPlan(init), ChannelOps(c));
      ChannelRun(RunAccesses(m, BindPlan(init)).entries, c);
    }
  }

  /** Once a prefix of the channels has failed, the rest of the list changes nothing. */
  lemma {:induction false} BindRunStopped(m: map<string, string>, chs: seq<nat>, k: nat)
    requires k <= |chs|
    requires BindRun(m, chs[..k]).missing.Some?
    ensures BindRun(m, chs) == BindRun(m, chs[..k])
    decreases |chs| - k
  {
    if k < |chs| {
      assert chs[..k + 1][..k] == chs[..k];
      BindRunStopped(m, chs, k + 1);
    } else {
      assert chs[..k] == chs;
    }
  }

  /** At most one channel is the one that failed. */
  lemma FailedAtUnique(m: map<string, string>, chs: seq<nat>, k1: nat, k2: nat)
    requires FailedAt(m, chs, k1) && FailedAt(m, chs, k2)
    ensures k1 == k2
  {
    if k1 < k2 {
      assert chs[..k2][..k1 + 1] == chs[..k1 + 1];
      BindRunStopped(m, chs[..k2], k1 + 1);
    } else if k2 < k1 {
      assert chs[..k1][..k2 + 1] == chs[..k2 + 1];
      BindRunStopped(m, chs[..k1], k2 + 1);
    }
  }

  /** The failing channel's run is the whole binding's: its missing entry is the one reported. */
  lemma FailedAtReported(m: map<string, string>, chs: seq<nat>, k: nat)
    requires FailedAt(m, chs, k)
    ensures BindRun(m, chs) == BindRun(m, chs[..k + 1]) && BindRun(m, chs).missing.Some?
  {
    BindRunStopped(m, chs, k + 1);
  }

  /** One step of the binding loop: what binding channel chs[i] after a clean prefix amounts to. */
  lemma BindStep(m: map<string, string>, chs: seq<nat>, i: nat, o: Run, params: XportParams)
    requires i < |chs|
    requires o == BindRun(m, chs[..i]) && o.missing.None?
    ensures var oc := ChannelOutcome(o.entries, chs[i]);
            Chain(o, oc) == BindRun(m, chs[..i + 1])
            && (oc.missing.Some? ==> Chain(o, oc) == BindRun(m, chs))
    ensures EndpointReadable(o.entries, chs[i]) ==>
              EndpointReadable(m, chs[i])
              && ChannelTransport(o.entries, chs[i], params) == ChannelTransport(m, chs[i], params)
  {
    assert chs[..i + 1][..i] == chs[..i];
    if ChannelOutcome(o.entries, chs[i]).missing.Some? {
      BindRunStopped(m, chs, i + 1);
    }
    BindRunIsPlanRun(m, chs[..i]);
    EndpointKept(m, chs[..i], chs[i]);
  }

  /**
   * The new streamer of get_rx_stream: spp samples per packet, one unbound
   * slot per channel, big-endian VRT unpacking and the given converter.
   */
  method MakeStreamer(spp: nat, n: nat, id: ConvertId) returns (s: Streamer)
    ensures fresh(s) && s.Valid() && s.maxNumSamps == spp
    ensures s.buffSources == Resized([], n, None) && s.cmdSinks == Resized([], n, None)
    ensures s.converter == Some(id) && s.bigEndianUnpacker && s.issued == []
  {
    s := new Streamer(spp);
    s.Resize(n);
    s.SetVrtUnpackerBigEndian();
    s.SetConverter(id);
  }

  // ---------------------------------------------------------------------
  // The device

  class CrimsonTngImpl {
    const tree: Tree
    /** VITA header and trailer bytes of a receive packet. */
    const hdrSize: nat
    /** convert::get_bytes_per_item("sc16") */
    const bytesPerItem: nat
    var rxChannels: seq<nat>
    var rxIf: seq<Option<Transport>>
    var rxStreamers: seq<Streamer?>

    ghost predicate Valid()
    {
      hdrSize <= JumboFrameSize && bytesPerItem > 0
    }

    constructor (tree: Tree, hdrSize: nat, bytesPerItem: nat)
      requires hdrSize <= JumboFrameSize && bytesPerItem > 0
      ensures Valid() && this.tree == tree && this.hdrSize == hdrSize && this.bytesPerItem == bytesPerItem
      ensures rxChannels == [] && rxIf == [] && rxStreamers == []
    {
      this.tree := tree;
      this.hdrSize := hdrSize;
      this.bytesPerItem := bytesPerItem;
      rxChannels, rxIf, rxStreamers := [], [], [];
    }

    /**
     * One channel of the binding loop: read its endpoint, power it on and
     * enable VITA framing and streaming, and make its transport from the
     * destination address and port. Stops at the first entry missing from the tree.
     */
    method BindChannel(c: nat, params: XportParams) returns (r: Result<Transport, TreeError>)
      modifies tree
      ensures var o := ChannelOutcome(old(tree.entries), c);
              tree.entries == o.entries && tree.log == old(tree.log) + o.log
              && (r.Success? <==> o.missing.None?)
              && (r.Failure? ==> r.error == PathNotFound(o.missing.value))
      ensures r.Success? ==> EndpointReadable(old(tree.entries), c)
                             && r.value == ChannelTransport(old(tree.entries), c, params)
    {
      ghost var m, log0 := tree.entries, tree.log;
      ChannelRun(m, c);
      ghost var ro := RunAccesses(m, ReadOps(c));
      var ep := ReadEndpoint(c);
      if ep.Failure? {
        assert ChannelOutcome(m, c) == ro;
        return Failure(ep.error);
      }
      var en := EnableChannel(c);
      ghost var eo := RunAccesses(m, EnableOps(c));
      assert ChannelOutcome(m, c) == Chain(ro, eo);
      AppendAssoc(log0, ro.log, eo.log);
      if en.Failure? {
        return Failure(en.error);
      }
      r := Success(Transport(ep.value.ipDest, ep.value.port, AddrArg, PortArg, params));
    }

    /** The three endpoint reads of one channel; they stop at the first missing entry. */
    method ReadEndpoint(c: nat) returns (r: Result<Endpoint, TreeError>)
      modifies tree
      ensures var o := RunAccesses(old(tree.entries), ReadOps(c));
              tree.entries == old(tree.entries) && tree.log == old(tree.log) + o.log
              && (r.Success? <==> o.missing.None?)
              && (r.Failure? ==> r.error == PathNotFound(o.missing.value))
      ensures r.Success? ==> EndpointReadable(old(tree.entries), c)
                             && r.value == StoredEndpoint(old(tree.entries), c)
    {
      ReadRun(tree.entries, c);
      var port := tree.Get(PortPath(c));
      if port.Failure? {
        return Failure(port.error);
      }
      var ip := tree.Get(IpDestPath(c));
      if ip.Failure? {
        return Failure(ip.error);
      }
      var iface := tree.Get(IfacePath(c));
      if iface.Failure? {
        return Failure(iface.error);
      }
      r := Success(Endpoint(port.value, ip.value, iface.value));
    }

    /** Power on, VITA enable, stream enable; they stop at the first missing entry. */
    method EnableChannel(c: nat) returns (r: Result<(), TreeError>)
      modifies tree
      ensures var o := RunAccesses(old(tree.entries), EnableOps(c));
              tree.entries == o.entries && tree.log == old(tree.log) + o.log
              && (r.Success? <==> o.missing.None?)
              && (r.Failure? ==> r.error == PathNotFound(o.missing.value))
    {
      ghost var log0 := tree.log;
      EnableRun(tree.entries, c);
      var pwr := tree.Set(PwrPath(c), On);
      if pwr.Failure? {
        return Failure(pwr.error);
      }
      var vita := tree.Set(VitaEnPath(c), On);
      ghost var s1, s2 := Set(PwrPath(c), On), Set(VitaEnPath(c), On);
      AppendAssoc(log0, [s1], [s2]);
      if vita.Failure? {
        return Failure(vita.error);
      }
      var stream := tree.Set(StreamPath(c), On);
      AppendAssoc(log0, [s1, s2], [Set(StreamPath(c), On)]);
      if stream.Failure? {
        return Failure(stream.error);
      }
      r := Success(());
    }

    /**
     * get_rx_stream(args). The tree accesses are exactly the plan for the
     * channel list, cut at the first missing entry; on success every channel
     * has its transport, the streamer has one binding per channel, and every
     * entry of _rx_streamers refers to that one streamer.
     */
    method GetRxStream(args: StreamArgs) returns (r: Result<Streamer, TreeError>)
      requires Valid()
      requires args.spp.Some? ==> InUnsignedRange(args.spp.value)
      modifies this, tree
      ensures rxChannels == WithDefaults(args).channels
      ensures var o := BindRun(old(tree.entries), rxChannels);
              tree.entries == o.entries && tree.log == old(tree.log) + o.log
              && (r.Success? <==> o.missing.None?)
              && (r.Failure? ==> r.error == PathNotFound(o.missing.value))
      ensures |rxIf| == |rxChannels|
      ensures r.Failure? ==> rxStreamers == old(rxStreamers)
      ensures r.Failure? ==>
                exists k :: FailedAt(old(tree.entries), rxChannels, k)
                            && SlotsAfterFailure(old(tree.entries), rxChannels, k, old(rxIf), rxIf,
                                                 RxXportParams(PacketBytes(hdrSize)))
      ensures r.Success? ==>
                forall i :: 0 <= i < |rxChannels| ==>
                  SlotBound(old(tree.entries), rxChannels[i], rxIf[i], RxXportParams(PacketBytes(hdrSize)))
      ensures r.Success? ==>
                var s := r.value;
                fresh(s) && s.Valid()
                && s.maxNumSamps == SamplesPerPacket(PacketBytes(hdrSize), bytesPerItem, args.spp)
                && s.converter == Some(RxConverter("sc16", args.cpuFormat))
                && s.bigEndianUnpacker && s.issued == []
                && |s.buffSources| == |rxChannels|
                && (forall i :: 0 <= i < |rxChannels| ==>
                      s.buffSources[i] == rxIf[i] && s.flushOnBind[i]
                      && s.cmdSinks[i] == Some(StreamCmdKey(rxChannels[i])))
                && |rxStreamers| == |rxChannels|
                && (forall i :: 0 <= i < |rxChannels| ==> rxStreamers[i] == s)
    {
      var a := WithDefaults(args);
      rxChannels := a.channels;
      var bpp := PacketBytes(hdrSize);
      var spp := SamplesPerPacket(bpp, bytesPerItem, a.spp);
      var params := RxXportParams(bpp);
      var bound := BindChannels(rxChannels, params);
      if bound.Failure? {
        return Failure(bound.error);
      }
      var s := MakeStreamer(spp, |rxChannels|, RxConverter(a.otwFormat, a.cpuFormat));
      BindStreamer(s);
      r := Success(s);
    }

    /**
     * The channel loop of get_rx_stream: _rx_if gets one slot per channel,
     * and each channel in turn is bound and its transport stored in its slot.
     */
    method BindChannels(chs: seq<nat>, params: XportParams) returns (r: Result<(), TreeError>)
      modifies this`rxIf, tree
      ensures var o := BindRun(old(tree.entries), chs);
              tree.entries == o.entries && tree.log == old(tree.log) + o.log
              && (r.Success? <==> o.missing.None?)
              && (r.Failure? ==> r.error == PathNotFound(o.missing.value))
      ensures |rxIf| == |chs|
      ensures r.Success? ==> forall i :: 0 <= i < |chs| ==> SlotBound(old(tree.entries), chs[i], rxIf[i], params)
      ensures r.Failure? ==> exists k :: FailedAt(old(tree.entries), chs, k) && SlotsAfterFailure(old(tree.entries), chs, k, old(rxIf), rxIf, params)
    {
      ghost var m, log0 := tree.entries, tree.log;
      rxIf := Resized(rxIf, |chs|, None);
      ghost var resized := rxIf;
      var i := 0;
      ghost var o := Run(m, [], None);
      assert chs[..0] == [];
      while i < |chs|
        invariant 0 <= i <= |chs|
        invariant |rxIf| == |chs|
        invariant o == BindRun(m, chs[..i]) && o.missing.None?
        invariant tree.entries == o.entries && tree.log == log0 + o.log
        invariant forall j :: 0 <= j < i ==> SlotBound(m, chs[j], rxIf[j], params)
        invariant forall j :: i <= j < |chs| ==> rxIf[j] == resized[j]
      {
        BindStep(m, chs, i, o, params);
        var t := BindChannel(chs[i], params);
        ghost var oc := ChannelOutcome(o.entries, chs[i]);
        AppendAssoc(log0, o.log, oc.log);
        o := Chain(o, oc);
        if t.Failure? {
          assert FailedAt(m, chs, i) && SlotsAfterFailure(m, chs, i, old(rxIf), rxIf, params);
          r := Failure(t.error);
          return;
        }
        ghost var before := rxIf;
        rxIf := rxIf[i := Some(t.value)];
        assert SlotBound(m, chs[i], rxIf[i], params);
        forall j | 0 <= j < i
          ensures SlotBound(m, chs[j], rxIf[j], params)
        {
          assert rxIf[j] == before[j];
        }
        forall j | i + 1 <= j < |chs|
          ensures rxIf[j] == resized[j]
        {
          assert rxIf[j] == before[j];
        }
        i := i + 1;
      }
      assert chs[..i] == chs;
      r := Success(());
    }

    /**
     * The callback loop of get_rx_stream: _rx_streamers gets one slot per
     * channel; channel i's buffers come from its transport with a flush on
     * bind, its stream commands go to "rx_<letter>/stream", and its slot
     * refers to the streamer.
     */
    method BindStreamer(s: Streamer)
      requires s.Valid() && |s.buffSources| == |rxChannels| == |rxIf|
      requires forall i :: 0 <= i < |rxIf| ==> rxIf[i].Some?
      modifies this`rxStreamers, s
      ensures s.Valid() && s.converter == old(s.converter) && s.issued == old(s.issued)
      ensures s.bigEndianUnpacker == old(s.bigEndianUnpacker)
      ensures |s.buffSources| == |rxChannels| && |rxStreamers| == |rxChannels|
      ensures forall i :: 0 <= i < |rxChannels| ==>
                s.buffSources[i] == rxIf[i] && s.flushOnBind[i]
                && s.cmdSinks[i] == Some(StreamCmdKey(rxChannels[i])) && rxStreamers[i] == s
    {
      rxStreamers := Resized(rxStreamers, |rxChannels|, null);
      var n := 0;
      while n < |rxChannels|
        invariant 0 <= n <= |rxChannels|
        invariant s.Valid() && |s.buffSources| == |rxChannels| && |rxStreamers| == |rxChannels|
        invariant s.converter == old(s.converter) && s.issued == old(s.issued)
        invariant s.bigEndianUnpacker == old(s.bigEndianUnpacker)
        invariant forall j :: 0 <= j < n ==>
                    s.buffSources[j] == rxIf[j] && s.flushOnBind[j]
                    && s.cmdSinks[j] == Some(StreamCmdKey(rxChannels[j])) && rxStreamers[j] == s
      {
        s.SetXportChanGetBuff(n, rxIf[n].value, true);
        s.SetIssueStreamCmd(n, StreamCmdKey(rxChannels[n]));
        rxStreamers := rxStreamers[n := s];
        n := n + 1;
      }
    }
  }
}
