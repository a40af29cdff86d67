/** The decoder set-up of src/decoder.cpp: the file-level hw_pix_fmt slot,
    the get_hw_format callback that reads it, and init_decoder, which opens
    the input, resolves and configures a decoder, negotiates the hardware
    pixel format and writes its three out-parameters. */
module Decoder {
  import opened AvTypes
  import opened HwFormat
  import opened HwConfigs
  import opened InitSpec

  /** Which get_format callback a codec context carries. */
  datatype GetFormatCallback = LibraryDefault | HwFormatCallback

  /** An opened input container (AVFormatContext). */
  class FormatContext {
    const streams: seq<Stream>
    var isOpen: bool

    /** A successful avformat_open_input. */
    constructor (streams: seq<Stream>)
      ensures this.streams == streams && isOpen
    {
      this.streams := streams;
      isOpen := true;
    }

    /** avformat_close_input. */
    method Close()
      modifies this
      ensures !isOpen
    {
      isOpen := false;
    }
  }

  /** A decoding context (AVCodecContext) bound to one decoder. */
  class CodecContext {
    const codec: Codec
    var live: bool
    var hwDeviceCtx: Option<DeviceRef>
    var getFormat: GetFormatCallback
    var params: Option<CodecParameters>
    var timeBase: Rational
    var pktTimebase: Rational
    var framerate: Rational
    var isOpen: bool

    /** A successful avcodec_alloc_context3: defaults everywhere, time bases 0/1. */
    constructor (codec: Codec)
      ensures this.codec == codec && live && !isOpen
      ensures hwDeviceCtx == None && getFormat == LibraryDefault && params == None
      ensures timeBase == pktTimebase == framerate == Rational(0, 1)
    {
      this.codec := codec;
      live := true;
      hwDeviceCtx := None;
      getFormat := LibraryDefault;
      params := None;
      timeBase, pktTimebase, framerate := Rational(0, 1), Rational(0, 1), Rational(0, 1);
      isOpen := false;
    }

    /** avcodec_free_context. */
    method Free()
      modifies this
      ensures !live && isOpen == old(isOpen)
      ensures hwDeviceCtx == old(hwDeviceCtx) && getFormat == old(getFormat) && params == old(params)
      ensures timeBase == old(timeBase) && pktTimebase == old(pktTimebase) && framerate == old(framerate)
    {
      live := false;
    }
  }

  /** The caller's three out-pointers: *fmt_ctx, *dec_ctx, *in_vstream_idx. */
  class OutSlots {
    var fmtCtx: FormatContext?
    var decCtx: CodecContext?
    var vstreamIdx: int

    constructor ()
      ensures fmtCtx == null && decCtx == null && vstreamIdx == 0
    {
      fmtCtx, decCtx, vstreamIdx := null, null, 0;
    }
  }

  /** What init_decoder leaves in a decoding context it allocated, after
      the run r over the given stream: released only when the hardware stage
      failed, open only on success, the device and callback installed
      exactly when a device context is given, parameters copied and timing
      taken from the stream once those stages have run. */
  ghost predicate ContextAfter(c: CodecContext, lib: Library, hwCtx: Option<DeviceRef>, stream: Stream, r: Run)
    reads c
  {
    && (c.live <==> FailedStage(r) != Some(HwSetup))
    && (c.isOpen <==> r.ret == 0)
    && c.hwDeviceCtx == hwCtx
    && c.getFormat == (if hwCtx.Some? then HwFormatCallback else LibraryDefault)
    && c.params == (if CopyParameters in r.ran && lib.parametersToContext >= 0 then Some(stream.codecpar) else None)
    && (SetTiming in r.ran ==>
          c.timeBase == c.pktTimebase == stream.timeBase && c.framerate == lib.guessedFrameRate)
    && (SetTiming !in r.ran ==> c.timeBase == c.pktTimebase == c.framerate == Rational(0, 1))
  }

  /** Stages run before the context existed do not change what it holds.
      A corollary of the definition of ContextAfter. */
  lemma ContextAfterEarlierStages(c: CodecContext, lib: Library, hwCtx: Option<DeviceRef>, stream: Stream,
                                  head: seq<Stage>, tail: seq<Stage>, ret: int)
    requires tail != [] && CopyParameters !in head && SetTiming !in head
    requires ContextAfter(c, lib, hwCtx, stream, Run(tail, ret))
    ensures ContextAfter(c, lib, hwCtx, stream, Run(head + tail, ret))
  {
  }

  /** The translation unit src/decoder.cpp: its one piece of state is the
      process-wide negotiated pixel format. */
  class DecoderUnit {
    var hwPixFmt: PixelFormat

    /** Static initialisation: no format negotiated yet. */
    constructor ()
      ensures hwPixFmt == PIX_FMT_NONE
    {
      hwPixFmt := PIX_FMT_NONE;
    }

    /** get_hw_format: advance through the offered formats until the
        terminator, returning the negotiated format if it is met first. */
    method GetHwFormat(pixFmts: seq<PixelFormat>) returns (r: PixelFormat)
      requires Terminated(pixFmts)
      ensures r == ChooseFormat(pixFmts, hwPixFmt)
      ensures r == (if hwPixFmt in Offered(pixFmts) then hwPixFmt else PIX_FMT_NONE)
    {
      var p := 0;
      while pixFmts[p] != PIX_FMT_NONE
        invariant 0 <= p <= SentinelIndex(pixFmts)
        invariant forall i :: 0 <= i < p ==> pixFmts[i] != hwPixFmt
        decreases SentinelIndex(pixFmts) - p
      {
        if pixFmts[p] == hwPixFmt {
          assert pixFmts[p] == Offered(pixFmts)[p];
          return pixFmts[p];
        }
        p := p + 1;
      }
      assert p == SentinelIndex(pixFmts);
      return PIX_FMT_NONE;
    }

    /** The hardware block of init_decoder: attach the device to the
        context, install get_hw_format, then walk the decoder's declared
        configurations in order. The first one that binds to a device
        context of the requested type sets the negotiated format. When the
        list runs out first, the context is freed, the input closed and
        AVERROR(ENOSYS) returned, with the negotiated format untouched. */
    method SetUpHardware(decoder: Codec, hwType: HwDeviceType, device: DeviceRef,
                         codecCtx: CodecContext, ifmtCtx: FormatContext) returns (ret: int)
      requires codecCtx.live && ifmtCtx.isOpen
      modifies this, codecCtx, ifmtCtx
      ensures ret == 0 || ret == AvError(ENOSYS)
      ensures ret == 0 <==> FirstQualifying(decoder.hwConfigs, hwType).Some?
      ensures hwPixFmt == (if ret == 0 then NegotiatedFormat(decoder.hwConfigs, hwType).value else old(hwPixFmt))
      ensures codecCtx.hwDeviceCtx == Some(device) && codecCtx.getFormat == HwFormatCallback
      ensures codecCtx.live == ifmtCtx.isOpen == (ret == 0)
      ensures codecCtx.isOpen == old(codecCtx.isOpen) && codecCtx.params == old(codecCtx.params)
      ensures codecCtx.timeBase == old(codecCtx.timeBase) && codecCtx.pktTimebase == old(codecCtx.pktTimebase)
      ensures codecCtx.framerate == old(codecCtx.framerate)
    {
      codecCtx.hwDeviceCtx := Some(device);
      codecCtx.getFormat := HwFormatCallback;
      var i := 0;
      while true
        invariant 0 <= i <= |decoder.hwConfigs|
        invariant forall j :: 0 <= j < i ==> !Qualifies(decoder.hwConfigs[j], hwType)
        invariant hwPixFmt == old(hwPixFmt)
        decreases |decoder.hwConfigs| - i
      {
        var config := GetHwConfig(decoder, i);
        if config.None? {
          codecCtx.Free();
          ifmtCtx.Close();
          return AvError(ENOSYS);
        }
        if Qualifies(config.value, hwType) {
          FirstMatchWins(decoder.hwConfigs, hwType, i);
          hwPixFmt := config.value.pixFmt;
          return 0;
        }
        i := i + 1;
      }
    }

    /** The head of init_decoder: open the input, probe its streams, select
        the best video stream and look up a decoder for its codec. The first
        failing call's code is returned; the container stays open once
        opened. */
    static method OpenVideoInput(lib: Library, ghost hwType: HwDeviceType, ghost hardware: bool)
      returns (ret: int, ghost trace: seq<Stage>, ifmtCtx: FormatContext?, streamIndex: int, decoder: Option<Codec>)
      requires lib.WellFormed()
      ensures ret == 0 || ret < 0
      ensures ret == 0 <==>
        lib.openInput >= 0 && lib.findStreamInfo >= 0 && lib.bestStream >= 0 && lib.Decoder().Some?
      ensures ret < 0 ==> Run(trace, ret) == Outcome(lib, hwType, hardware)
      ensures ret < 0 ==> trace != [] && trace[|trace| - 1] != HwSetup && AllocContext !in trace && SetTiming !in trace
      ensures ret == 0 ==> trace == [OpenInput, ProbeStreams, FindVideoStream, FindDecoder]
      ensures ret == 0 ==> streamIndex == lib.bestStream && decoder.Some? && decoder == lib.Decoder()
      ensures ret == 0 ==> ifmtCtx != null && 0 <= streamIndex < |ifmtCtx.streams|
                           && lib.VideoStream() == Some(ifmtCtx.streams[streamIndex])
      ensures ret == 0 ==>
        var rest := ConfigureOutcome(lib, hwType, hardware);
        Outcome(lib, hwType, hardware) == Run(trace + rest.ran, rest.ret)
      ensures ifmtCtx == null <==> lib.openInput < 0
      ensures ifmtCtx != null ==> fresh(ifmtCtx) && ifmtCtx.streams == lib.streams && ifmtCtx.isOpen
    {
      ifmtCtx, streamIndex, decoder := null, 0, None;

      // open the input
      trace := [OpenInput];
      ret := lib.openInput;
      if ret < 0 {
        return;
      }
      ifmtCtx := new FormatContext(lib.streams);

      // probe stream information
      trace := [OpenInput, ProbeStreams];
      ret := lib.findStreamInfo;
      if ret < 0 {
        return;
      }

      // find the best video stream
      trace := [OpenInput, ProbeStreams, FindVideoStream];
      ret := lib.bestStream;
      if ret < 0 {
        return;
      }
      streamIndex := ret;
      var videoStream := ifmtCtx.streams[streamIndex];

      // find the decoder
      trace := [OpenInput, ProbeStreams, FindVideoStream, FindDecoder];
      if videoStream.codecpar.codecId !in lib.decoders {
        ret := AVERROR_DECODER_NOT_FOUND;
        return;
      }
      decoder := Some(lib.decoders[videoStream.codecpar.codecId]);
      ret := 0;
    }

    /** The tail of init_decoder: copy the selected stream's codec
        parameters into the context, set its time bases and frame rate from
        the stream, then open the decoder. The first failing call's code is
        returned; nothing after it happens. */
    static method OpenCodec(lib: Library, videoStream: Stream, codecCtx: CodecContext) returns (ret: int, ghost trace: seq<Stage>)
      requires !codecCtx.isOpen
      modifies codecCtx
      ensures Run(trace, ret) == CodecOutcome(lib)
      ensures codecCtx.params == (if lib.parametersToContext >= 0 then Some(videoStream.codecpar) else old(codecCtx.params))
      ensures lib.parametersToContext >= 0 ==>
        codecCtx.timeBase == codecCtx.pktTimebase == videoStream.timeBase && codecCtx.framerate == lib.guessedFrameRate
      ensures lib.parametersToContext < 0 ==>
        codecCtx.timeBase == old(codecCtx.timeBase) && codecCtx.pktTimebase == old(codecCtx.pktTimebase)
        && codecCtx.framerate == old(codecCtx.framerate)
      ensures codecCtx.isOpen <==> ret == 0
      ensures codecCtx.live == old(codecCtx.live) && codecCtx.hwDeviceCtx == old(codecCtx.hwDeviceCtx)
      ensures codecCtx.getFormat == old(codecCtx.getFormat)
    {
      // copy the stream's codec parameters
      trace := [CopyParameters];
      ret := lib.parametersToContext;
      if ret < 0 {
        return;
      }
      codecCtx.params := Some(videoStream.codecpar);

      // time base and frame rate
      codecCtx.timeBase := videoStream.timeBase;
      codecCtx.pktTimebase := videoStream.timeBase;
      codecCtx.framerate := lib.guessedFrameRate;

      // open the decoder
      trace := [CopyParameters, SetTiming, OpenDecoder];
      ret := lib.open2;
      if ret < 0 {
        return;
      }
      codecCtx.isOpen := true;
      ret := 0;
    }

    /** The rest of init_decoder, once a decoder has been found for the
        selected stream: allocate a decoding context, attach the device and
        negotiate the hardware pixel format when a device context is given,
        then copy parameters, set timing and open the decoder. The trace
        lists the stages run here, after the first four. Only the hardware
        failure closes the input; every other failure leaves it open. */
    method ConfigureDecoder(lib: Library, hwType: HwDeviceType, hwCtx: Option<DeviceRef>, decoder: Codec,
                            videoStream: Stream, ifmtCtx: FormatContext)
      returns (ret: int, ghost trace: seq<Stage>, codecCtx: CodecContext?)
      requires lib.Decoder() == Some(decoder) && lib.VideoStream() == Some(videoStream)
      requires ifmtCtx.isOpen
      modifies this, ifmtCtx
      ensures Run(trace, ret) == ConfigureOutcome(lib, hwType, hwCtx.Some?)
      ensures codecCtx == null ==> trace == [AllocContext] && hwPixFmt == old(hwPixFmt)
      ensures ifmtCtx.isOpen <==> FailedStage(Run(trace, ret)) != Some(HwSetup)
      ensures codecCtx == null <==> !lib.allocSucceeds
      ensures codecCtx != null ==> fresh(codecCtx) && codecCtx.codec == decoder
      ensures codecCtx != null ==> ContextAfter(codecCtx, lib, hwCtx, videoStream, Run(trace, ret))
      ensures hwPixFmt == (if HwSetup in trace && NegotiatedFormat(decoder.hwConfigs, hwType).Some?
                           then NegotiatedFormat(decoder.hwConfigs, hwType).value
                           else old(hwPixFmt))
    {
      codecCtx := null;

      // allocate the decoding context
      trace := [AllocContext];
      if !lib.allocSucceeds {
        ret := AvError(ENOMEM);
        return;
      }
      codecCtx := new CodecContext(decoder);

      // attach the device and pick the hardware pixel format
      if hwCtx.Some? {
        trace := trace + [HwSetup];
        ret := SetUpHardware(decoder, hwType, hwCtx.value, codecCtx, ifmtCtx);
        if ret < 0 {
          return;
        }
      }

      // copy parameters, set timing, open
      ghost var rest;
      ret, rest := OpenCodec(lib, videoStream, codecCtx);
      trace := trace + rest;
    }

    /** init_decoder. The trace lists the stages that ran; input and ctx are
        the container and decoding context it acquired, if any. Each early
        return of the source is a phase returning a negative code, after
        which nothing else runs. */
    method InitDecoder(lib: Library, hwType: HwDeviceType, hwCtx: Option<DeviceRef>, out: OutSlots)
      returns (ret: int, ghost trace: seq<Stage>, ghost input: FormatContext?, ghost ctx: CodecContext?)
      requires lib.WellFormed()
      modifies this, out
      // the stages that ran, in order, and the code returned
      ensures Run(trace, ret) == Outcome(lib, hwType, hwCtx.Some?)
      // the out-parameters are written on success only
      ensures ret == 0 ==> out.fmtCtx == input && out.decCtx == ctx && out.vstreamIdx == lib.bestStream
      ensures ret != 0 ==>
        out.fmtCtx == old(out.fmtCtx) && out.decCtx == old(out.decCtx) && out.vstreamIdx == old(out.vstreamIdx)
      // the input is acquired once opened and released only by the hardware failure
      ensures input == null <==> lib.openInput < 0
      ensures input != null ==> fresh(input) && input.streams == lib.streams
      ensures input != null ==> (input.isOpen <==> FailedStage(Run(trace, ret)) != Some(HwSetup))
      // so is the decoding context
      ensures ctx == null <==> !(AllocContext in trace && lib.allocSucceeds)
      ensures ctx != null ==> fresh(ctx) && lib.Decoder() == Some(ctx.codec)
      ensures ctx != null ==> ContextAfter(ctx, lib, hwCtx, lib.VideoStream().value, Run(trace, ret))
      // the negotiated format changes only when the hardware stage passes
      ensures ctx == null ==> hwPixFmt == old(hwPixFmt)
      ensures ctx != null ==>
        hwPixFmt == (if HwSetup in trace && NegotiatedFormat(ctx.codec.hwConfigs, hwType).Some?
                     then NegotiatedFormat(ctx.codec.hwConfigs, hwType).value
                     else old(hwPixFmt))
    {
      ctx := null;
      var ifmtCtx, streamIndex, decoder;
      ret, trace, ifmtCtx, streamIndex, decoder := OpenVideoInput(lib, hwType, hwCtx.Some?);
      input := ifmtCtx;
      if ret == 0 {
        var codecCtx;
        ghost var tail;
        ret, tail, codecCtx := ConfigureDecoder(lib, hwType, hwCtx, decoder.value, ifmtCtx.streams[streamIndex], ifmtCtx);
        assert FailedStage(Run(trace + tail, ret)) == FailedStage(Run(tail, ret));
        if codecCtx != null {
          ContextAfterEarlierStages(codecCtx, lib, hwCtx, ifmtCtx.streams[streamIndex], trace, tail, ret);
        }
        trace, ctx := trace + tail, codecCtx;
        if ret == 0 {
          out.fmtCtx := ifmtCtx;
          out.decCtx := codecCtx;
          out.vstreamIdx := streamIndex;
        }
      }
    }
  }
}
