# Crimson TNG receive path

This project models the receive path of the Crimson TNG device driver and of
its timed-acquisition example client, and proves properties of that model.

`crimson_tng_impl::get_rx_stream` (module `CrimsonIo`) does the following:

- It fills in the stream-argument defaults: the wire format is `sc16`, and an empty channel list becomes channel 0.
- It sizes packets from the 9000-byte jumbo frame, less the VITA header.
- For each channel, in order, it reads the channel's port, destination address and interface from the device property tree.
- It then writes `"1"` to the channel's power, VITA-enable and stream-enable entries, and makes one UDP transport from the endpoint.
- It builds one receive streamer with the right samples per packet, big-endian VRT unpacking and the `sc16_item32_be` converter.
- It binds each channel's buffer source and stream-command sink to the streamer, and stores the streamer in every slot of `_rx_streamers`.

An access to a tree path that does not exist raises a lookup error. The model
carries that error back as `PathNotFound` and stops at that access. The tree's
successful accesses are kept in a log, so the contracts say exactly which
accesses happened, in which order, and what the tree holds afterwards.

The example client `rx_timed_samples_crimson` (module `RxTimedSamples`) does the following:

- It splits the channel list on `"`, `'` and `,`.
- It parses each token as an `int` and converts it to `size_t`. It rejects any channel not below both channel counts.
- It requests a streamer for the parsed channels.
- It issues one NUM_SAMPS_AND_DONE command. The command is deferred to `now + secs` when `secs > 0`.
- It allocates one buffer per channel.
- It accumulates `recv()` results until it has enough samples, a receive times out, or another error code makes it throw.

The property tree is `PropertyTree.Tree`. The streamer is `Streaming.Streamer`,
an object that records how it was configured. The results `recv()` hands back
are a script, one result per call, and the device clock is a parameter.

A failed setup keeps its side effects. `get_rx_stream` writes the power and
enable entries of the channels it has already bound, and of the failing
channel up to the failing access, and nothing undoes those writes.
`GetRxStream` states the entries and the log left by the run up to the first
missing path. It also states the `_rx_if` slots: those of the channels bound
before the failure hold their transports, and the later ones keep what the
resize left in them.

The example client is modelled as written, including its loop target (see
Findings).

## Model

| member | source | states |
|---|---|---|
| CrimsonIo.WithDefaults | host/lib/usrp/crimson_tng/io_impl.cpp:39-44 | the wire format becomes "sc16"; the host format and the spp argument are kept; a non-empty channel list is kept and an empty one becomes [0] |
| CrimsonIo.PacketBytes | host/lib/usrp/crimson_tng/io_impl.cpp:47-53 | payload bytes plus header bytes make up exactly the 9000-byte frame |
| CrimsonIo.SamplesPerPacket | host/lib/usrp/crimson_tng/io_impl.cpp:54-55 | a given spp is truncated toward zero: r ≤ spp < r + 1 for spp ≥ 0, and r = 0 for spp in (−1, 0); otherwise r is the number of whole items that fit in a packet (r·bpi ≤ bpp < (r+1)·bpi) |
| CrimsonIo.RxFramesHoldPacket | host/lib/usrp/crimson_tng/io_impl.cpp:60-70 | RxXportParams: every receive transport receives only (no send frames), into 32 frames that each hold one whole packet (frame size plus header is 9000 bytes) |
| CrimsonIo.RxConverterIsSc16 | host/lib/usrp/crimson_tng/io_impl.cpp:103-107 | RxConverter: whatever wire format the caller names, the converter reads "sc16_item32_be" into the caller's host format, one input to one output |
| CrimsonIo.ChannelLetters | host/lib/usrp/crimson_tng/io_impl.cpp:77 | channels 0–25 are the letters A–Z, and the stream-command key (line 133) uses the same letter in lower case |
| CrimsonIo.ChannelAliasing | host/lib/usrp/crimson_tng/io_impl.cpp:77-90 | the channel index is not checked: channel c + 256 makes exactly the same six tree accesses and gets the same command key as channel c |
| CrimsonIo.PathShapes | host/lib/usrp/crimson_tng/io_impl.cpp:78-90 | the lengths of the six per-channel paths, and the position of the channel letter and of the field name in them |
| CrimsonIo.ReadsNotWritten | host/lib/usrp/crimson_tng/io_impl.cpp:78-90 | no channel's port or destination-address entry is among the entries written for any channel |
| CrimsonIo.LettersModulo | host/lib/usrp/crimson_tng/io_impl.cpp:77-133 | ChannelLetter and StreamLetter: two channels get the same path letter, and the same command-key letter, exactly when they are equal modulo 256 |
| CrimsonIo.DistinctChannelsDistinctPaths | host/lib/usrp/crimson_tng/io_impl.cpp:77-133 | two channels write disjoint sets of entries exactly when they differ modulo 256, and StreamCmdKey gives them different keys exactly then |
| CrimsonIo.BindPlanLength | host/lib/usrp/crimson_tng/io_impl.cpp:75-90 | the binding makes six tree accesses per channel |
| CrimsonIo.BindPlanAppend | host/lib/usrp/crimson_tng/io_impl.cpp:75-90 | the accesses for a concatenated channel list are those of the first list followed by those of the second |
| CrimsonIo.BindPlanPrefix | host/lib/usrp/crimson_tng/io_impl.cpp:75-90 | channel i's accesses follow those of the channels before it |
| CrimsonIo.PlanSplit | host/lib/usrp/crimson_tng/io_impl.cpp:75-90 | the accesses split at any channel index into those before and those after |
| CrimsonIo.BindPlanOrder | host/lib/usrp/crimson_tng/io_impl.cpp:75-90 | BindPlan, the flat access plan: channel i's six accesses, in source order (port, ip_dest and iface reads, then pwr, vita_en and stream writes), sit at positions 6i to 6i+5 |
| CrimsonIo.BindPlanWrites | host/lib/usrp/crimson_tng/io_impl.cpp:78-90 | every write stores "1" into a power or enable entry of a listed channel; every read is of an endpoint entry of a listed channel |
| CrimsonIo.ChannelLastWrite | host/lib/usrp/crimson_tng/io_impl.cpp:83-90 | one channel's accesses leave its three power and enable entries holding "1" and write nothing else |
| CrimsonIo.IsWritePathSnoc | host/lib/usrp/crimson_tng/io_impl.cpp:75-90 | an entry is written for a list exactly when it is written for the list without its last channel or for that last channel |
| CrimsonIo.BindPlanLastWrite | host/lib/usrp/crimson_tng/io_impl.cpp:75-90 | the last value the whole binding writes to an entry is "1" exactly when it is a power or enable entry of a listed channel; otherwise the entry is not written |
| CrimsonIo.BindPlanEffect | host/lib/usrp/crimson_tng/io_impl.cpp:75-90 | carried out on existing entries, the binding sets the listed channels' power and enable entries to "1" and leaves every other entry's value unchanged |
| CrimsonIo.ReadRun | host/lib/usrp/crimson_tng/io_impl.cpp:78-80 | the three endpoint reads change no entry and stop at the first missing entry, which they report |
| CrimsonIo.EnableRun | host/lib/usrp/crimson_tng/io_impl.cpp:83-90 | the three writes of "1" happen in order and stop at the first missing entry, which they report; earlier writes stay |
| CrimsonIo.ChannelRun | host/lib/usrp/crimson_tng/io_impl.cpp:78-90 | ChannelOutcome: one channel's six accesses amount to its reads, then, only if all of them succeed, its writes |
| CrimsonIo.BindingStops | host/lib/usrp/crimson_tng/io_impl.cpp:74-93 | the binding makes the planned accesses in the planned order, up to the first entry missing from the tree; it reports that entry, which was indeed missing; it completes exactly when no entry is missing |
| CrimsonIo.BindingEffect | host/lib/usrp/crimson_tng/io_impl.cpp:74-93 | a complete binding keeps the tree's set of paths; the listed channels' power and enable entries hold "1" and every other entry keeps its value |
| CrimsonIo.EndpointKept | host/lib/usrp/crimson_tng/io_impl.cpp:78-92 | binding earlier channels changes no later channel's endpoint entries, so every channel reads the endpoint the tree held before the call |
| CrimsonIo.BindRunIsPlanRun | host/lib/usrp/crimson_tng/io_impl.cpp:75-93 | BindRun, the loop's semantics: running the channels one after another, each continuing from the entries the earlier ones left, gives the same entries, log and error as running the flat access plan |
| CrimsonIo.BindRunStopped | host/lib/usrp/crimson_tng/io_impl.cpp:75-93 | once a channel has failed, the remaining channels change nothing |
| CrimsonIo.FailedAtUnique | host/lib/usrp/crimson_tng/io_impl.cpp:75-93 | at most one channel is the one where the binding failed: all channels before it bound and its own accesses hit a missing entry |
| CrimsonIo.FailedAtReported | host/lib/usrp/crimson_tng/io_impl.cpp:75-93 | when channel k is the failing one, the whole binding's entries, log and error are those of the channels up to and including k |
| CrimsonIo.BindStep | host/lib/usrp/crimson_tng/io_impl.cpp:75-92 | one pass of the loop extends the run by that channel's outcome; a failing channel ends the whole binding; its transport equals the one made from the tree as it was before the call |
| CrimsonIo.MakeStreamer | host/lib/usrp/crimson_tng/io_impl.cpp:96-108 | a fresh streamer with the given spp, one unbound slot per channel, big-endian VRT unpacking and the given converter, and no commands issued |
| CrimsonIo.CrimsonTngImpl.constructor | host/lib/usrp/crimson_tng/io_impl.cpp:38 | the object get_rx_stream is called on: its tree, header size and bytes per item, with no channels, transports or streamers yet |
| CrimsonIo.CrimsonTngImpl.BindChannel | host/lib/usrp/crimson_tng/io_impl.cpp:76-92 | one channel's accesses against the tree; fails with the first missing path; on success its transport is made from the first five arguments of make(): ip_dest, port, "127.0.0.1", "1" and the receive parameters, read from the entries before the call |
| CrimsonIo.CrimsonTngImpl.ReadEndpoint | host/lib/usrp/crimson_tng/io_impl.cpp:77-80 | the three reads log in order, change no entry, and fail with the first missing path; on success the endpoint is the stored triple |
| CrimsonIo.CrimsonTngImpl.EnableChannel | host/lib/usrp/crimson_tng/io_impl.cpp:82-90 | the power, VITA-enable and stream-enable writes of "1", in that order, failing with the first missing path |
| CrimsonIo.CrimsonTngImpl.BindChannels | host/lib/usrp/crimson_tng/io_impl.cpp:74-93 | _rx_if gets one slot per channel; the tree ends as the channel-by-channel run leaves it, with its log; the call fails exactly when that run hits a missing path; on success every slot holds its channel's transport; on failure at channel k the slots before k hold their transports and the later ones keep what the resize left |
| CrimsonIo.CrimsonTngImpl.BindStreamer | host/lib/usrp/crimson_tng/io_impl.cpp:110-138 | slot i of the streamer gets channel i's transport as buffer source with flush, and the command key "rx_<letter>/stream"; every _rx_streamers slot refers to the streamer; converter, unpacker and issued commands are untouched |
| CrimsonIo.CrimsonTngImpl.GetRxStream | host/lib/usrp/crimson_tng/io_impl.cpp:38-161 | _rx_channels is the defaulted list; the tree's entries and log are those of the binding run; the call fails exactly when a path is missing, naming it, and leaves _rx_streamers alone, with the _rx_if slots before the failing channel bound and the later ones as resized; on success there is one transport per channel and a fresh streamer with the computed spp, the sc16 converter, big-endian unpacking and one binding per channel, stored in every slot |
| Streaming.Streamer.constructor | host/lib/usrp/crimson_tng/io_impl.cpp:96 | a new streamer with the given samples per packet, no slots, no converter and no commands |
| Streaming.Streamer.Resize | host/lib/usrp/crimson_tng/io_impl.cpp:99 | the per-channel slots grow or shrink to n, keeping those that remain and leaving new ones unbound |
| Streaming.Streamer.SetVrtUnpackerBigEndian | host/lib/usrp/crimson_tng/io_impl.cpp:100 | the streamer unpacks big-endian VRT headers |
| Streaming.Streamer.SetConverter | host/lib/usrp/crimson_tng/io_impl.cpp:103-108 | the streamer converts with the given converter id |
| Streaming.Streamer.SetXportChanGetBuff | host/lib/usrp/crimson_tng/io_impl.cpp:113-124 | only slot i's buffer source and flush flag change |
| Streaming.Streamer.SetIssueStreamCmd | host/lib/usrp/crimson_tng/io_impl.cpp:125-136 | only slot i's command sink changes |
| Streaming.Streamer.IssueStreamCmd | host/examples/rx_timed_samples_crimson.cpp:104 | the command is issued once, after all earlier ones |
| Streaming.Streamer.GetMaxNumSamps | host/examples/rx_timed_samples_crimson.cpp:110 | the buffer size is the streamer's samples per packet |
| Streaming.Streamer.GetNumChannels | host/examples/rx_timed_samples_crimson.cpp:112 | the channel count is the number of bound slots |
| PropertyTree.Tree.constructor | host/lib/usrp/crimson_tng/io_impl.cpp:78-90 | a tree holding the given entries, with nothing logged yet |
| PropertyTree.Tree.Get | host/lib/usrp/crimson_tng/io_impl.cpp:78-80 | a read of an existing path returns its value and is logged; a missing path fails with PathNotFound and logs nothing; entries never change |
| PropertyTree.Tree.Set | host/lib/usrp/crimson_tng/io_impl.cpp:83-90 | a write to an existing path replaces its value and is logged; a missing path fails with PathNotFound and changes nothing |
| PropertyTree.Applied | host/lib/usrp/crimson_tng/io_impl.cpp:78-90 | carrying out accesses never adds or removes a path |
| PropertyTree.FirstMissing | host/lib/usrp/crimson_tng/io_impl.cpp:78-90 | k accesses succeed before the first missing path: the first k paths exist and path k does not |
| PropertyTree.RunAccesses | host/lib/usrp/crimson_tng/io_impl.cpp:78-90 | a run of accesses never adds or removes a path |
| PropertyTree.RunAppend | host/lib/usrp/crimson_tng/io_impl.cpp:78-90 | running a + b is running a and, if a completed, running b from where a left the entries |
| PropertyTree.RunLogPrefix | host/lib/usrp/crimson_tng/io_impl.cpp:78-90 | a run logs a prefix of its accesses, completes exactly when it logs all of them, and otherwise reports the path of the first access it did not log |
| PropertyTree.RunEntries | host/lib/usrp/crimson_tng/io_impl.cpp:78-90 | the entries after a run are the effect of exactly the accesses it logged |
| PropertyTree.RunStopsAtFirstMissing | host/lib/usrp/crimson_tng/io_impl.cpp:78-90 | a run logs exactly the accesses before the first one whose path is missing |
| PropertyTree.AppliedAt | host/lib/usrp/crimson_tng/io_impl.cpp:83-90 | an existing entry ends holding the last value written to it, or its old value |
| PropertyTree.LastWriteAppend | host/lib/usrp/crimson_tng/io_impl.cpp:83-90 | the last write to an entry in a + b is b's if b writes it, else a's |
| PropertyTree.AppliedAppend | host/lib/usrp/crimson_tng/io_impl.cpp:78-90 | carrying out a + b is carrying out a, then b |
| PropertyTree.FirstMissingAppend | host/lib/usrp/crimson_tng/io_impl.cpp:78-90 | after a prefix whose paths all exist, the count of successful accesses continues into the rest |
| PropertyTree.FirstMissingStops | host/lib/usrp/crimson_tng/io_impl.cpp:78-90 | a prefix that hits a missing path stops the whole sequence at the same place |
| Wrappers.Resized | host/lib/usrp/crimson_tng/io_impl.cpp:74 | vector resize: the new length, the kept prefix, and the fill value in new slots |
| RxTimedSamples.Split | host/examples/rx_timed_samples_crimson.cpp:71 | boost::split on `"`, `'` and `,` gives at least one token, even for empty text; SplitCount, SplitClean, JoinSplit and SplitJoin characterise it |
| RxTimedSamples.SplitCount | host/examples/rx_timed_samples_crimson.cpp:71 | splitting gives one token more than there are delimiters |
| RxTimedSamples.SplitClean | host/examples/rx_timed_samples_crimson.cpp:71 | no token holds a delimiter |
| RxTimedSamples.JoinSplit | host/examples/rx_timed_samples_crimson.cpp:71 | the tokens joined with commas give back the list, with every delimiter written as a comma |
| RxTimedSamples.SplitJoin | host/examples/rx_timed_samples_crimson.cpp:71 | delimiter-free tokens joined with commas split back into the same tokens |
| RxTimedSamples.ParseInt | host/examples/rx_timed_samples_crimson.cpp:73 | lexical_cast<int>: an accepted token's value fits an int (−2^31 to 2^31 − 1); ParseIntSyntax gives the only text accepted, and ParseIntDigits and LeadingZeros give the value of every such text |
| RxTimedSamples.LeadingZeros | host/examples/rx_timed_samples_crimson.cpp:73 | leading zeros do not change the value of a string of digits, so "007" is worth 7 |
| RxTimedSamples.ParseIntDigits | host/examples/rx_timed_samples_crimson.cpp:73 | any string of digits, bare or after '+', parses to its decimal value when that is at most 2^31 − 1, and after '−' to its negation down to −2^31; beyond those bounds it is rejected |
| RxTimedSamples.ParseIntSyntax | host/examples/rx_timed_samples_crimson.cpp:73 | only an optional sign followed by one or more decimal digits, with nothing else, is accepted |
| RxTimedSamples.ParseShowNat | host/examples/rx_timed_samples_crimson.cpp:73 | every non-negative int written in decimal parses back to itself |
| RxTimedSamples.ParseShowNegative | host/examples/rx_timed_samples_crimson.cpp:73 | a minus sign before the decimal text parses to the negated value, down to the smallest int |
| RxTimedSamples.ToSizeT | host/examples/rx_timed_samples_crimson.cpp:73 | the int-to-size_t conversion: the result is below 2^64, a non-negative int keeps its value, and a negative one wraps to at least 2^63 |
| RxTimedSamples.ChannelCheck | host/examples/rx_timed_samples_crimson.cpp:73-77 | an accepted token's channel is below both channel counts; a rejected one raises bad_lexical_cast for that token or "Invalid channel(s) specified."; ChannelCheckMeaning states when each happens |
| RxTimedSamples.CheckToken | host/examples/rx_timed_samples_crimson.cpp:73-77 | the loop body for one token (parse, conversion to size_t, range check) gives the channel or the error ChannelCheck specifies |
| RxTimedSamples.ChannelCheckMeaning | host/examples/rx_timed_samples_crimson.cpp:73-77 | with channel counts below 2^63, a token is accepted exactly when it parses to an int that is non-negative and below both counts, and the channel is that int; otherwise the error is bad_lexical_cast or "Invalid channel(s) specified." |
| RxTimedSamples.ChannelNums | host/examples/rx_timed_samples_crimson.cpp:72-78 | every channel of an accepted list is below both channel counts; ChannelNumsAccepted and ChannelNumsFirstError characterise the list |
| RxTimedSamples.ChannelNumsNext | host/examples/rx_timed_samples_crimson.cpp:72-78 | after an accepted prefix, one more token either raises its error or appends its channel |
| RxTimedSamples.ChannelNumsAccepted | host/examples/rx_timed_samples_crimson.cpp:72-78 | the list is accepted exactly when every token is; then it holds one channel per token, in order |
| RxTimedSamples.ChannelNumsFirstError | host/examples/rx_timed_samples_crimson.cpp:72-78 | a rejected list reports the error of its first rejected token, after which no token is checked |
| RxTimedSamples.ChannelNumsOfChecks | host/examples/rx_timed_samples_crimson.cpp:72-78 | tokens that each pass the check give exactly the list of their channels, in order |
| RxTimedSamples.ShownChannelsParse | host/examples/rx_timed_samples_crimson.cpp:71-78 | channels below both counts, written in decimal and joined with commas, parse back to the same channels |
| RxTimedSamples.DefaultChannels | host/examples/rx_timed_samples_crimson.cpp:47-78 | with at least four channels on each side, the default `--channels` value "0,1,2,3" selects channels 0, 1, 2 and 3 |
| RxTimedSamples.ChannelNumsStopped | host/examples/rx_timed_samples_crimson.cpp:72-78 | once a token has been rejected, the tokens after it change nothing |
| RxTimedSamples.ParseChannels | host/examples/rx_timed_samples_crimson.cpp:69-78 | the loop's channel list or first error is that of the split list checked token by token |
| RxTimedSamples.AcceptedListNonEmpty | host/examples/rx_timed_samples_crimson.cpp:71-78 | an accepted list has one channel per token, and at least one |
| RxTimedSamples.MakeStreamCmd | host/examples/rx_timed_samples_crimson.cpp:94-103 | mode NUM_SAMPS_AND_DONE for the requested count; the command is deferred exactly when secs > 0, to now + secs, and otherwise streams now at time zero |
| RxTimedSamples.AllocateBuffers | host/examples/rx_timed_samples_crimson.cpp:110-114 | one buffer per channel, each of buff_sz complex int16 samples (4 bytes each) |
| RxTimedSamples.Acquire | host/examples/rx_timed_samples_crimson.cpp:119-144 | the receive loop's semantics over the recv() results: it never consumes more results than there are, and never loses samples; AcquireEnd and AcquireContinues characterise how it ends |
| RxTimedSamples.AcquireEnd | host/examples/rx_timed_samples_crimson.cpp:119-144 | the loop ends with enough samples exactly when its count reaches the target; the count is the sum of the ERROR_CODE_NONE results consumed; a timeout or error is the last result consumed and adds nothing |
| RxTimedSamples.AcquireContinues | host/examples/rx_timed_samples_crimson.cpp:120-143 | every call before the stopping one returned ERROR_CODE_NONE with the count still below the target |
| RxTimedSamples.AccumulateSamples | host/examples/rx_timed_samples_crimson.cpp:116-144 | the loop's end, count and number of recv() calls are those of the loop semantics; the first call gets secs + 0.1 as timeout and every later one 0.1 |
| RxTimedSamples.AsWrittenTargetExceeds | host/examples/rx_timed_samples_crimson.cpp:95-120 | AsWrittenTarget, `total_num_samps * buffs.size()`: with one channel it is the count the stream command asks for, and with two or more it exceeds that count whenever any samples are asked for |
| RxTimedSamples.LoopTargetMatchesCommand | host/examples/rx_timed_samples_crimson.cpp:94-120 | LoopTarget, the corrected target: the count the stream command asks the device for, whatever the number of channels |
| RxTimedSamples.AsWrittenSilentTimeout | host/examples/rx_timed_samples_crimson.cpp:120-146 | with the target as written, two channels and a device that delivers the 10 samples per channel it was asked for, the loop ends on a timeout short of its target and gives no warning |
| RxTimedSamples.CorrectedTargetReached | host/examples/rx_timed_samples_crimson.cpp:120 | with the corrected target the same device run ends on the first call, target reached |
| RxTimedSamples.CorrectedWarningIffTimedOut | host/examples/rx_timed_samples_crimson.cpp:146 | with the corrected target, a loop that ends normally warns exactly when it timed out |
| RxTimedSamples.ExitCode | host/examples/rx_timed_samples_crimson.cpp:54-57 | help returns ~0, a finished run returns EXIT_SUCCESS, and an exception leaves main without a code |
| RxTimedSamples.ClientResult | host/examples/rx_timed_samples_crimson.cpp:131-153 | how the client ends after the loop: an error code other than none or timeout throws, and only then; a loop that reached its target or timed out finishes with the samples counted, and the warning (Shortfall, line 146) is given exactly when fewer than total_num_samps arrived; a script that runs out is reported as such |
| RxTimedSamples.ClientExitsSuccess | host/examples/rx_timed_samples_crimson.cpp:131-153 | main returns EXIT_SUCCESS exactly when the receive loop ends on its target or on a timeout |
| RxTimedSamples.Receive | host/examples/rx_timed_samples_crimson.cpp:94-146 | the stream command is issued once; one buffer per channel of the streamer's packet size; the loop runs to the target as written, total_num_samps times the number of buffers, with the timeouts above; the outcome is ClientResult of that loop |
| RxTimedSamples.RunClient | host/examples/rx_timed_samples_crimson.cpp:29-154 | help changes neither the device nor its tree and makes no streamer and no buffers; a bad channel list throws with the same guarantees; otherwise the device is set up on the parsed channels, and a missing tree path throws. After that, one command is issued, there is one buffer per channel, and the loop runs to the target as written, total_num_samps times the number of channels, with the timeouts above; the outcome follows the loop semantics |

## Left out

- CrimsonIo.CrimsonTngImpl.GetRxStream: does not model the rate-update loop of lines 145-153 (`update()` on each channel's rate entry, which re-publishes the value to the tree's subscribers) or the wait for the time-difference loop to converge (lines 155-158). Subscribers and the clock-convergence controller are not part of this model. A missing rate entry, which would throw there, is not modelled either.
- CrimsonIo.CrimsonTngImpl.GetRxStream: `set_properties_from_addr()` (line 72) is not part of this model.
- CrimsonIo.CrimsonTngImpl.GetRxStream: `hdr_size` (lines 47-52, computed from VRT header sizes) and `get_bytes_per_item("sc16")` are the object's `hdrSize` and `bytesPerItem` rather than computed.
- CrimsonIo.CrimsonTngImpl.BindChannel: the UDP transport is the record of the first five arguments it is made from. Sockets and buffers are not modelled. The interface entry is read but not passed to the transport, as in the code.
- CrimsonIo.CrimsonTngImpl.BindChannel: the last two arguments of `udp_stream_zero_copy::make` (line 92), the default-constructed buffer parameters `bp` and the device address `_addr`, are not recorded. Neither depends on the channel or on the tree.
- CrimsonIo.SamplesPerPacket: the `spp` argument is a number already taken from the argument dictionary. A value that does not convert to double (where `cast` throws) is not modelled. The spp value must lie in (−1, 2^32), because `unsigned(...)` of a double is undefined when the value truncated toward zero does not fit.
- CrimsonIo.PathShapes: paths are built as the text `base + "/Channel_" + letter + "/field"`. The path class's own joining, which may drop a doubled '/' when the letter itself is '/' (channel 238 modulo 256), is not part of this model, so for those channels the model's path may be one character longer than the program's.
- PropertyTree.Tree: the log records reads as well as writes, so that the contracts can state access order. The real tree keeps no such log.
- Streaming.Streamer: packet reception, header unpacking, conversion and alignment checks inside `recv()` are not modelled. `recv()` is a script of (samples, error code) results.
- RxTimedSamples.RunClient: does not model program-option parsing, printing, `set_thread_priority_safe`, device creation (`multi_usrp::make` and the ", crimson:sob=20" suffix), `set_rx_rate`, or the `args`, `rate` and `dilv` options. The device is a parameter, and `get_time_now()` is the `now` parameter.
- RxTimedSamples.RunClient: buffers are their sizes in bytes; `malloc` (and its failure) is not modelled.
- RxTimedSamples.RunClient: the outcome ScriptExhausted, for a script that runs out before the loop ends, is an artefact of the finite script and has no counterpart in the program.
- RxTimedSamples.RunClient: does not model the UHD_SAFE_MAIN exception wrapper, which turns an exception into an exit code. The wrapper is not part of this model, so an exception is the outcome Raised.
- RxTimedSamples.AccumulateSamples: samples and counts are unbounded, so `size_t` overflow of `total_num_samps * buffs.size()` and of the accumulated count is not modelled.
- RxTimedSamples.MakeStreamCmd: times are real numbers of seconds rather than `time_spec_t`'s full and fractional seconds. Floating-point rounding is not modelled.
- RxTimedSamples.ChannelCheckMeaning: stated for channel counts below 2^63. Larger counts would let a wrapped negative channel pass the check, as the code allows.

## Findings

| source | as written | input that shows it | evidently intended | confidence | as-written member | corrected member |
|---|---|---|---|---|---|---|
| host/examples/rx_timed_samples_crimson.cpp:120 | the loop runs until `num_acc_samps` reaches `total_num_samps * buffs.size()`. `recv()` counts samples per channel, and the command asks for `total_num_samps` per channel. With more than one channel the target is never met: the loop ends on the timeout, and the warning at line 146 compares against `total_num_samps`, so it stays silent | 2 channels, nsamps 10; recv returns 10 samples with ERROR_CODE_NONE, then a timeout | loop until `num_acc_samps` reaches `total_num_samps`, the same count the warning checks; then the warning is given exactly when the loop timed out short | not executed; medium | RxTimedSamples.AsWrittenSilentTimeout | RxTimedSamples.CorrectedWarningIffTimedOut |
