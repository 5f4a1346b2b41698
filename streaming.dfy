/**
 * The collaborators that the receive path wires together: the UDP zero-copy
 * transport (recorded by the arguments it is made from), the converter id,
 * stream commands, per-call receive results, and the receive packet streamer,
 * which is kept as an opaque sink that records how it was configured.
 */
module Streaming {
  import opened Wrappers

  /** zero_copy_xport_params: frame sizes and frame counts of a transport. */
  datatype XportParams = XportParams(
    sendFrameSize: nat, recvFrameSize: nat, numSendFrames: nat, numRecvFrames: nat)

  /**
   * A transport built by udp_stream_zero_copy::make, recorded by its first
   * five arguments in order: the address and the UDP port read from the
   * tree, the two constant address and port arguments, and the frame
   * parameters.
   */
  datatype Transport = Transport(
    ipAddr: string, udpPort: string, addrArg: string, portArg: string, params: XportParams)

  /** uhd::convert::id_type */
  datatype ConvertId = ConvertId(inputFormat: string, numInputs: nat, outputFormat: string, numOutputs: nat)

  datatype StreamMode = StartContinuous | StopContinuous | NumSampsAndDone | NumSampsAndMore

  /**
   * uhd::stream_cmd_t. Time is kept as a real number of seconds; a freshly
   * constructed command streams now, with zero samples and time zero.
   */
  datatype StreamCmd = StreamCmd(mode: StreamMode, numSamps: nat, streamNow: bool, timeSpec: real)

  /** rx_metadata_t::error_code_t */
  datatype ErrorCode = ErrNone | ErrTimeout | ErrLateCommand | ErrBrokenChain | ErrOverflow | ErrAlignment | ErrBadPacket

  /** What one call to recv() hands back: the samples per channel and the error code. */
  datatype RecvResult = RecvResult(numSamps: nat, errorCode: ErrorCode)

  /**
   * sph::recv_packet_streamer as seen from the code that builds it: the
   * samples-per-packet it was made with, its per-channel buffer sources and
   * command sinks, the converter and the header unpacker it was given, and
   * the stream commands issued to it.
   */
  class Streamer {
    const maxNumSamps: nat
    var buffSources: seq<Option<Transport>>
    var flushOnBind: seq<bool>
    var cmdSinks: seq<Option<string>>
    var converter: Option<ConvertId>
    var bigEndianUnpacker: bool
    var issued: seq<StreamCmd>

    ghost predicate Valid()
      reads this
    {
      |flushOnBind| == |buffSources| && |cmdSinks| == |buffSources|
    }

    constructor (spp: nat)
      ensures Valid() && maxNumSamps == spp
      ensures buffSources == [] && cmdSinks == [] && converter == None && !bigEndianUnpacker && issued == []
    {
      maxNumSamps := spp;
      buffSources, flushOnBind, cmdSinks := [], [], [];
      converter := None;
      bigEndianUnpacker := false;
      issued := [];
    }

    /** resize(n): the per-channel bindings grow or shrink to n entries. */
    method Resize(n: nat)
      requires Valid()
      modifies this
      ensures Valid() && |buffSources| == n
      ensures buffSources == Resized(old(buffSources), n, None)
      ensures cmdSinks == Resized(old(cmdSinks), n, None)
      ensures flushOnBind == Resized(old(flushOnBind), n, false)
      ensures converter == old(converter) && bigEndianUnpacker == old(bigEndianUnpacker) && issued == old(issued)
    {
      buffSources := Resized(buffSources, n, None);
      cmdSinks := Resized(cmdSinks, n, None);
      flushOnBind := Resized(flushOnBind, n, false);
    }

    /** set_vrt_unpacker(&vrt::if_hdr_unpack_be) */
    method SetVrtUnpackerBigEndian()
      requires Valid()
      modifies this`bigEndianUnpacker
      ensures Valid() && bigEndianUnpacker
    {
      bigEndianUnpacker := true;
    }

    /** set_converter(id) */
    method SetConverter(id: ConvertId)
      requires Valid()
      modifies this`converter
      ensures Valid() && converter == Some(id)
    {
      converter := Some(id);
    }

    /** set_xport_chan_get_buff(i, get_recv_buff of transport t, flush) */
    method SetXportChanGetBuff(i: nat, t: Transport, flush: bool)
      requires Valid() && i < |buffSources|
      modifies this`buffSources, this`flushOnBind
      ensures Valid()
      ensures buffSources == old(buffSources)[i := Some(t)]
      ensures flushOnBind == old(flushOnBind)[i := flush]
    {
      buffSources := buffSources[i := Some(t)];
      flushOnBind := flushOnBind[i := flush];
    }

    /** set_issue_stream_cmd(i, set_stream_cmd bound to `key`) */
    method SetIssueStreamCmd(i: nat, key: string)
      requires Valid() && i < |cmdSinks|
      modifies this`cmdSinks
      ensures Valid() && cmdSinks == old(cmdSinks)[i := Some(key)]
    {
      cmdSinks := cmdSinks[i := Some(key)];
    }

    /** issue_stream_cmd(cmd): recorded once per call. */
    method IssueStreamCmd(cmd: StreamCmd)
      requires Valid()
      modifies this`issued
      ensures Valid() && issued == old(issued) + [cmd]
    {
      issued := issued + [cmd];
    }

    method GetMaxNumSamps() returns (n: nat)
      ensures n == maxNumSamps
    {
      n := maxNumSamps;
    }

    method GetNumChannels() returns (n: nat)
      requires Valid()
      ensures n == |buffSources|
    {
      n := |buffSources|;
    }
  }
}
