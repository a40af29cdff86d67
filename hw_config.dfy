/** Choosing the hardware configuration of a decoder: the first declared
    configuration that can be bound to an externally supplied device
    context of the requested device type. */
module HwConfigs {
  import opened AvTypes

  /** The configuration supports the HW_DEVICE_CTX method and names the
      requested device type. */
  predicate Qualifies(c: HwConfig, hwType: HwDeviceType) {
    c.methods & HW_CONFIG_METHOD_HW_DEVICE_CTX != 0 && c.deviceType == hwType
  }

  /** avcodec_get_hw_config: the i-th declared configuration, or nothing
      once the index runs past the declared list. */
  function GetHwConfig(codec: Codec, i: int): (config: Option<HwConfig>)
    ensures config.Some? <==> 0 <= i < |codec.hwConfigs|
  {
    if 0 <= i < |codec.hwConfigs| then Some(codec.hwConfigs[i]) else None
  }

  /** Index of the lowest-numbered qualifying configuration, if any. */
  function FirstQualifying(configs: seq<HwConfig>, hwType: HwDeviceType): (r: Option<nat>)
    ensures r.Some? ==> r.value < |configs| && Qualifies(configs[r.value], hwType)
    ensures r.Some? ==> forall j :: 0 <= j < r.value ==> !Qualifies(configs[j], hwType)
    ensures r.None? <==> forall j :: 0 <= j < |configs| ==> !Qualifies(configs[j], hwType)
  {
    if configs == [] then None
    else if Qualifies(configs[0], hwType) then Some(0)
    else match FirstQualifying(configs[1..], hwType)
      case None => None
      case Some(k) => Some(k + 1)
  }

  /** The pixel format the negotiation stores: that of the first qualifying
      configuration. */
  function NegotiatedFormat(configs: seq<HwConfig>, hwType: HwDeviceType): (fmt: Option<PixelFormat>)
    ensures fmt.Some? <==> exists j :: 0 <= j < |configs| && Qualifies(configs[j], hwType)
    ensures fmt.Some? ==> exists j :: 0 <= j < |configs| && Qualifies(configs[j], hwType) && configs[j].pixFmt == fmt.value
  {
    match FirstQualifying(configs, hwType)
    case None => None
    case Some(i) => Some(configs[i].pixFmt)
  }

  /** Declaration order is the only tie-break: once a qualifying
      configuration has been declared, any configurations declared after
      it, qualifying or not, do not change the choice. */
  lemma {:induction false} LaterConfigsIgnored(configs: seq<HwConfig>, later: seq<HwConfig>, hwType: HwDeviceType)
    requires FirstQualifying(configs, hwType).Some?
    ensures FirstQualifying(configs + later, hwType) == FirstQualifying(configs, hwType)
  {
    if !Qualifies(configs[0], hwType) {
      assert (configs + later)[1..] == configs[1..] + later;
      LaterConfigsIgnored(configs[1..], later, hwType);
    }
  }

  /** A qualifying configuration preceded only by non-qualifying ones is
      the one chosen, whatever follows it. A corollary of the contract of
      FirstQualifying. */
  lemma FirstMatchWins(configs: seq<HwConfig>, hwType: HwDeviceType, i: nat)
    requires i < |configs| && Qualifies(configs[i], hwType)
    requires forall j :: 0 <= j < i ==> !Qualifies(configs[j], hwType)
    ensures FirstQualifying(configs, hwType) == Some(i)
    ensures NegotiatedFormat(configs, hwType) == Some(configs[i].pixFmt)
  {
  }
}
