/** The format-selection callback get_hw_format, as a pure search over a
    pixel-format list that the library terminates with PIX_FMT_NONE. */
module HwFormat {
  import opened AvTypes

  /** A list the decoding runtime may hand to the callback: it carries the
      PIX_FMT_NONE terminator somewhere. */
  predicate Terminated(fmts: seq<PixelFormat>) {
    PIX_FMT_NONE in fmts
  }

  /** Position of the terminator: the first PIX_FMT_NONE. */
  function SentinelIndex(fmts: seq<PixelFormat>): (k: nat)
    requires Terminated(fmts)
    ensures k < |fmts| && fmts[k] == PIX_FMT_NONE
    ensures forall i :: 0 <= i < k ==> fmts[i] != PIX_FMT_NONE
  {
    if fmts[0] == PIX_FMT_NONE then 0 else 1 + SentinelIndex(fmts[1..])
  }

  /** The formats the runtime actually offers: everything before the terminator. */
  function Offered(fmts: seq<PixelFormat>): (offered: seq<PixelFormat>)
    requires Terminated(fmts)
    ensures PIX_FMT_NONE !in offered
    ensures offered + [PIX_FMT_NONE] <= fmts
  {
    fmts[..SentinelIndex(fmts)]
  }

  /** The callback's choice: walk the list up to the terminator and return
      the first entry equal to the negotiated format; PIX_FMT_NONE when the
      terminator comes first. The result is the negotiated format exactly
      when the runtime offers it. */
  function ChooseFormat(fmts: seq<PixelFormat>, negotiated: PixelFormat): (r: PixelFormat)
    requires Terminated(fmts)
    ensures r == (if negotiated in Offered(fmts) then negotiated else PIX_FMT_NONE)
  {
    if fmts[0] == PIX_FMT_NONE then PIX_FMT_NONE
    else if fmts[0] == negotiated then fmts[0]
    else
      assert fmts[1..][..SentinelIndex(fmts[1..])] == Offered(fmts)[1..];
      ChooseFormat(fmts[1..], negotiated)
  }

  /** Nothing after the terminator is looked at: replacing whatever follows
      the first PIX_FMT_NONE leaves the choice unchanged. */
  lemma EntriesAfterSentinelIgnored(fmts: seq<PixelFormat>, tail: seq<PixelFormat>, negotiated: PixelFormat)
    requires Terminated(fmts)
    ensures Terminated(Offered(fmts) + [PIX_FMT_NONE] + tail)
    ensures ChooseFormat(Offered(fmts) + [PIX_FMT_NONE] + tail, negotiated) == ChooseFormat(fmts, negotiated)
  {
    var offered := Offered(fmts);
    var cut := offered + [PIX_FMT_NONE] + tail;
    assert cut[|offered|] == PIX_FMT_NONE;
    // the terminator of cut is where fmts had its own, so both offer the same formats
    assert forall i :: 0 <= i < |offered| ==> cut[i] == offered[i] != PIX_FMT_NONE;
    assert SentinelIndex(cut) == |offered|;
    assert Offered(cut) == offered;
  }
}
