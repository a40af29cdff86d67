/** Values and constants of the media library that the decoder set-up reads:
    pixel formats, hardware configurations of a decoder, streams, time bases
    and the error codes init_decoder returns. */
module AvTypes {

  datatype Option<+T> = None | Some(value: T)

  /** An AVPixelFormat tag. The library numbers them from 0; the "none"
      format, which also terminates pixel-format lists, is -1. */
  type PixelFormat = int
  const PIX_FMT_NONE: PixelFormat := -1

  /** An AVHWDeviceType tag (CUDA, VAAPI, ...). */
  type HwDeviceType = int

  /** An AVCodecID tag. */
  type CodecId = int

  /** The bit of AVCodecHWConfig.methods saying that the decoder can be
      paired with an externally created device context. */
  const HW_CONFIG_METHOD_HW_DEVICE_CTX: bv32 := 0x01

  /** One declared hardware configuration of a decoder (AVCodecHWConfig). */
  datatype HwConfig = HwConfig(pixFmt: PixelFormat, methods: bv32, deviceType: HwDeviceType)

  /** A decoder implementation (AVCodec), as far as this model needs it: its
      hardware configurations in the order avcodec_get_hw_config enumerates
      them. */
  datatype Codec = Codec(hwConfigs: seq<HwConfig>)

  /** AVRational. */
  datatype Rational = Rational(num: int, den: int)

  /** The codec parameters of a stream (AVCodecParameters), as far as this
      model needs them: the codec id the decoder lookup uses. The rest is
      copied as a whole or not at all. */
  datatype CodecParameters = CodecParameters(codecId: CodecId)

  /** One stream of an opened container (AVStream). */
  datatype Stream = Stream(codecpar: CodecParameters, timeBase: Rational)

  /** An externally owned hardware device context (the AVBufferRef passed in
      as hw_ctx); only its identity matters here. */
  datatype DeviceRef = DeviceRef(id: nat)

  /** POSIX error numbers as Linux defines them. */
  const ENOMEM: int := 12
  const ENOSYS: int := 38

  /** AVERROR(e) on platforms whose errno values are positive. */
  function AvError(e: nat): (code: int)
    requires e > 0
    ensures code < 0
  {
    -(e as int)
  }

  /** AVERROR_DECODER_NOT_FOUND = FFERRTAG(0xF8, 'D', 'E', 'C'): the negated
      little-endian tag 0xF8 | 'D' << 8 | 'E' << 16 | 'C' << 24. */
  const AVERROR_DECODER_NOT_FOUND: int := -0x4345_44F8
}
