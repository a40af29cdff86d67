# video2x decoder set-up, modelled in Dafny

This project models `src/decoder.cpp` of video2x. That file prepares an FFmpeg
decoder for the video stream of an input file, with optional hardware
acceleration. It has three parts:

- `hw_pix_fmt`, a process-wide slot holding the hardware pixel format
  negotiated for the decoder.
- `get_hw_format`, the `get_format` callback that FFmpeg calls with a list of
  candidate pixel formats ended by `AV_PIX_FMT_NONE`. It returns the
  negotiated format when the list offers it, and `AV_PIX_FMT_NONE` otherwise.
- `init_decoder`, which runs these steps in order and stops at the first
  failure:
  1. open the input;
  2. probe its streams;
  3. select the best video stream;
  4. look up a decoder for it;
  5. allocate a decoding context;
  6. if a hardware device context is given, attach it, install the callback,
     and walk the decoder's hardware configurations for the first one that
     supports a device context of the requested type;
  7. copy the stream's codec parameters;
  8. set the time bases and frame rate;
  9. open the decoder.

  Only on success does it write its three out-parameters and return 0.

Files:

- `av_types.dfy` (module `AvTypes`): the library's value types and
  constants. `AV_PIX_FMT_NONE` is -1 and the device-context method bit is
  0x01. `AVERROR(e)` is `-e`, with the Linux `ENOMEM` = 12 and `ENOSYS` = 38.
  `AVERROR_DECODER_NOT_FOUND` is `-0x434544F8`.
- `hw_format.dfy` (module `HwFormat`): the pure meaning of `get_hw_format`
  as a search of a terminated list.
- `hw_config.dfy` (module `HwConfigs`): the first-match rule for hardware
  configurations.
- `init_spec.dfy` (module `InitSpec`): `init_decoder` as a fail-fast stage
  pipeline, in three equivalent forms, with lemmas about it:
  - `RunStages`, a fold over the stage list;
  - `RunFrom`, one stage at a time;
  - `Outcome`, a case table over the library's answers.
- `decoder.dfy` (module `Decoder`): the imperative model.
  - Class `DecoderUnit` owns `hwPixFmt` (the static `hw_pix_fmt`), the
    callback loop `GetHwFormat` and `InitDecoder`.
  - `InitDecoder` is built from phase methods that follow the source's blocks:
    - `OpenVideoInput`: lines 34-62;
    - `ConfigureDecoder`: lines 64-109;
    - `SetUpHardware`: lines 71-94;
    - `OpenCodec`: lines 96-109.
  - Classes `FormatContext` and `CodecContext` are the container and the
    decoding context, whose fields the code writes in place. `OutSlots`
    stands for the three out-pointers.

How external calls are modelled:

- Every FFmpeg call that `init_decoder` makes is an oracle. A `Library` value
  records what each call answers for one input file: the open, probe and
  best-stream results, the decoder table, whether allocation succeeds, the
  parameter-copy and open results, and the guessed frame rate.
- `InitDecoder` returns a ghost trace of the stages that ran. It also returns
  the objects it acquired as ghost outputs, so its contract can say what
  happens to them.

Clean-up happens on one failure path only. The `AVERROR(ENOSYS)` return
(no qualifying hardware configuration, `src/decoder.cpp:84-86`) frees the
decoding context and closes the input. The returns at lines 41, 48, 61, 67,
98 and 108 leave whatever was acquired: the container stays open, and the
context stays allocated if it exists. `InitDecoder`'s contract states this:
`input.isOpen` and `ctx.live` become false exactly when the failing stage is
the hardware stage.

Why `init_decoder`'s run has three forms in `init_spec.dfy`:

- `RunFrom` follows the code's control flow literally: each block either
  returns its code or falls through to the next block (`Next`). `Init` is
  defined by it.
- `RunStages` is the same run as a fold over a list of stages. The fail-fast
  lemmas are stated over it for every stage list, by induction on the list.
  `InitIsPipelineRun` carries them over to `Init`.
- `Outcome` is the run as a table of the source's early returns. The method
  contracts are stated with it, because a table of cases is what the
  verifier can match against a method's branches without unfolding a
  recursion. `OutcomeIsInit` proves it equal to `Init`.

## Model

| member | source | states |
|---|---|---|
| AvTypes.AvError | src/decoder.cpp:67 | `AVERROR` of a positive error number is negative, so it is never mistaken for success |
| HwFormat.SentinelIndex | src/decoder.cpp:13 | the scan stops at the first `AV_PIX_FMT_NONE`: an in-bounds index holding the terminator, with none before it |
| HwFormat.Offered | src/decoder.cpp:13 | the formats offered are the entries before the terminator; they contain no `NONE`, and the list continues with the terminator |
| HwFormat.ChooseFormat | src/decoder.cpp:12-20 | the callback's answer is the negotiated format exactly when it is among the offered entries, and `AV_PIX_FMT_NONE` otherwise |
| HwFormat.EntriesAfterSentinelIgnored | src/decoder.cpp:13 | replacing everything after the first terminator leaves the callback's answer unchanged |
| Decoder.DecoderUnit.constructor | src/decoder.cpp:9 | before any negotiation the stored format is `AV_PIX_FMT_NONE` |
| Decoder.DecoderUnit.GetHwFormat | src/decoder.cpp:12-20 | the pointer loop over a terminated list returns the stored format if it is offered before the terminator, else `AV_PIX_FMT_NONE` (equal to `ChooseFormat`) |
| HwConfigs.Qualifies | src/decoder.cpp:88-89 | a configuration qualifies when its methods include the device-context bit and its device type is the requested one (a definition; the first-match contracts below rest on it) |
| HwConfigs.GetHwConfig | src/decoder.cpp:77-78 | the i-th configuration exists exactly when i is within the declared list; past its end the answer is null |
| HwConfigs.FirstQualifying | src/decoder.cpp:76-93 | the chosen index supports `HW_DEVICE_CTX` with the requested device type, and no earlier one does; there is no choice exactly when no configuration qualifies |
| HwConfigs.NegotiatedFormat | src/decoder.cpp:88-90 | a format is negotiated exactly when some configuration qualifies, and it is the pixel format of a qualifying one |
| HwConfigs.LaterConfigsIgnored | src/decoder.cpp:88-91 | once a qualifying configuration is declared, configurations declared after it do not change the choice |
| HwConfigs.FirstMatchWins | src/decoder.cpp:88-91 | a qualifying configuration preceded only by non-qualifying ones is chosen, and its pixel format is the one negotiated |
| InitSpec.Library.VideoStream | src/decoder.cpp:51-52 | the selected stream exists exactly when the best-stream answer is an index into the container's streams |
| InitSpec.Library.Decoder | src/decoder.cpp:55 | a decoder is found only for a selected stream whose codec id has a registered decoder |
| InitSpec.Pipeline | src/decoder.cpp:71 | the hardware stage belongs to the stage sequence exactly when a device context is given |
| InitSpec.Check | src/decoder.cpp:34-106 | every failing stage reports a negative code |
| InitSpec.RunStages | src/decoder.cpp:34-115 | the stages that run are a prefix of the sequence, and some stage runs whenever the sequence is non-empty |
| InitSpec.Next | src/decoder.cpp:34-109 | the block that runs after each block when it does not return: the source order, with the hardware block after the allocation only when a device context is given (a definition; each step moves strictly forward) |
| InitSpec.RunFrom | src/decoder.cpp:34-115 | the run from one block on: a failing block returns its code, a passing one falls through, the last one passing returns 0 (a definition; its properties are `RunFromShape` and `RunFromIsFailFast`) |
| InitSpec.RunFromShape | src/decoder.cpp:34-115 | a run from a block starts with that block and never returns a positive code; a run that returns 0 ended by opening the decoder |
| InitSpec.Init | src/decoder.cpp:22-116 | `init_decoder`'s run always starts by opening the input, never returns a positive code, and returns 0 only after opening the decoder |
| InitSpec.RunFromIsFailFast | src/decoder.cpp:34-115 | the run from any block, one block at a time, equals the fail-fast fold over the blocks from there to the end |
| InitSpec.CodecOutcome | src/decoder.cpp:96-115 | the run from the parameter copy starts with the copy, and timing is set exactly when the copy succeeds |
| InitSpec.ConfigureOutcome | src/decoder.cpp:64-115 | the run from the allocation starts with the allocation |
| InitSpec.Outcome | src/decoder.cpp:34-115 | the run of `init_decoder` starts by opening the input |
| InitSpec.CodecOutcomeIsRun | src/decoder.cpp:96-115 | copy, timing, open as a case table equals the stage-at-a-time fail-fast run |
| InitSpec.ConfigureOutcomeIsRun | src/decoder.cpp:64-115 | allocation, hardware set-up and the rest as a case table equals the stage-at-a-time fail-fast run |
| InitSpec.StreamLookupIsRun | src/decoder.cpp:45-115 | from the stream selection on, the run ends at the selection with its code, at the lookup with `AVERROR_DECODER_NOT_FOUND`, or continues into the allocation-onward table |
| InitSpec.ProbeIsRun | src/decoder.cpp:39-115 | from the stream probe on, the run ends at the first of probe, selection and lookup that fails, with its code, or continues into the allocation-onward table |
| InitSpec.OutcomeIsInit | src/decoder.cpp:34-115 | the case table of early returns equals the stage-at-a-time run of `init_decoder` |
| InitSpec.InitIsPipelineRun | src/decoder.cpp:22-116 | the stage-at-a-time run equals the fail-fast fold over the fixed stage sequence |
| InitSpec.RunStopsAtFirstFailure | src/decoder.cpp:34-115 | every stage that ran except the last passed; 0 is returned exactly when all stages ran and passed; otherwise the last stage failed with the returned code |
| InitSpec.FirstFailureDecides | src/decoder.cpp:34-109 | when stage k is the first to fail, exactly the stages up to k run and k's code is returned |
| InitSpec.AllPassSucceeds | src/decoder.cpp:111-115 | when every stage passes, all of them run and 0 is returned |
| InitSpec.DecoderNotFound | src/decoder.cpp:55-62 | a stream with no registered decoder ends the run after the lookup with `AVERROR_DECODER_NOT_FOUND` |
| InitSpec.AllocationFailure | src/decoder.cpp:64-68 | a failed allocation ends the run with `AVERROR(ENOMEM)` before any hardware set-up |
| InitSpec.NoQualifyingConfig | src/decoder.cpp:76-87 | with a device context and no qualifying configuration, the run ends at the hardware stage with `AVERROR(ENOSYS)`; parameters are never copied and the decoder is never opened |
| InitSpec.SoftwarePathSkipsHwSetup | src/decoder.cpp:71 | without a device context the hardware stage never runs, whatever the outcome |
| InitSpec.SuccessIffEveryStagePasses | src/decoder.cpp:106-115 | the run returns 0 exactly when every stage of the sequence passes, and then all of them ran |
| InitSpec.FirstFailureIsReported | src/decoder.cpp:34-109 | the code returned is never positive; on failure, every earlier stage passed and the last stage failed with the returned code |
| Decoder.FormatContext.constructor | src/decoder.cpp:34 | a successfully opened container holds the file's streams and is open |
| Decoder.FormatContext.Close | src/decoder.cpp:85 | closing leaves the container closed |
| Decoder.CodecContext.constructor | src/decoder.cpp:64 | a fresh context has no device, the default `get_format`, no parameters, 0/1 time bases, and is not open |
| Decoder.CodecContext.Free | src/decoder.cpp:84 | freeing releases the context and changes none of its other fields |
| Decoder.ContextAfter | src/decoder.cpp:64-104 | the state a run leaves in the decoding context: released only by a failed hardware stage, open only on success, device and `get_format` installed exactly when a device context is given, parameters copied and time bases and frame rate taken from the stream once those stages ran (a definition used by the method contracts) |
| Decoder.DecoderUnit.OpenVideoInput | src/decoder.cpp:34-62 | the head returns 0 exactly when open, probe, best-stream and decoder lookup all succeed, and otherwise the run's first failure code; the container exists exactly when the open succeeded, and it stays open |
| Decoder.DecoderUnit.SetUpHardware | src/decoder.cpp:71-94 | the device and callback are installed; returns 0 exactly when a configuration qualifies, storing the first qualifying format; otherwise frees the context, closes the input, returns `AVERROR(ENOSYS)` and leaves the stored format unchanged |
| Decoder.DecoderUnit.OpenCodec | src/decoder.cpp:96-109 | the run equals the copy/timing/open case table; parameters and timing are taken from the stream once the copy succeeds, and the context is open exactly on success |
| Decoder.DecoderUnit.ConfigureDecoder | src/decoder.cpp:64-109 | the run equals the allocation-onward case table; the input stays open and the context stays live unless the hardware stage failed; the stored format changes only when the hardware stage runs and finds a qualifying configuration |
| Decoder.DecoderUnit.InitDecoder | src/decoder.cpp:22-116 | the stages run in order and the first failure's code is returned (the run equals `Outcome`, hence `Init`). The out-parameters are written only when 0 is returned, with the opened container, the context and the selected stream index. The container and context exist exactly when opened/allocated, and are released only on the `AVERROR(ENOSYS)` path. Device, callback, parameters, time bases and frame rate are set as the stages that ran dictate. The stored format changes only when hardware set-up passes |

## Left out

- Logging through spdlog is not modelled; it has no effect on results. The
  decoder's name is read only for a log message, so `Codec` carries no name.
- The input path is not modelled. Opening and UTF-8 conversion are folded
  into the oracle's answer to `avformat_open_input`. When that call fails, the
  library has already freed its own context, so the model acquires no
  container on that path.
- The internals of the FFmpeg calls are oracles:
  - `avformat_find_stream_info`, `av_find_best_stream`, `avcodec_find_decoder`
    and `avcodec_alloc_context3` are fixed answers in `Library`. A best-stream
    answer is assumed to be negative or a valid stream index (`WellFormed`),
    as FFmpeg guarantees.
  - `av_guess_frame_rate` is a fixed value.
  - `avcodec_open2` only marks the context open.
- `avcodec_parameters_to_context` is modelled only by its result. Any partial
  effect of a failed copy on the context is not modelled: the model leaves the
  parameters unset.
- `av_buffer_ref` is modelled as sharing the device reference. Reference
  counting, and a failed reference (which the source does not check), are
  not modelled.
- `avcodec_free_context` and `avformat_close_input` also null the caller's
  pointer. The model marks the object released or closed instead of nulling
  a variable.
- `hw_pix_fmt` is process-global, and concurrent calls to `init_decoder`
  race on it. The model is sequential.
- The `int` index of the configuration loop is unbounded in the model.
  Decoders declare a handful of configurations, so 32-bit overflow cannot
  arise.
- Decoder.DecoderUnit.GetHwFormat: requires the candidate list to contain
  `AV_PIX_FMT_NONE`. The C loop reads past the end of an unterminated list,
  and FFmpeg always terminates the list it passes.
