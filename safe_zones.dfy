/**
 * The safe-zone reference: for each device, its screen size in points, the
 * insets the system reserves at each edge, and the content area left over.
 */
module SafeZones {
  datatype DeviceType = IPhone14Pro | IPhone14 | IPhoneSE | IPadPro

  datatype Size = Size(width: real, height: real)

  function DisplayName(d: DeviceType): string {
    match d
    case IPhone14Pro => "iPhone 14 Pro"
    case IPhone14 => "iPhone 14"
    case IPhoneSE => "iPhone SE"
    case IPadPro => "iPad Pro"
  }

  function ScreenSize(d: DeviceType): Size {
    match d
    case IPhone14Pro => Size(393.0, 852.0)
    case IPhone14 => Size(390.0, 844.0)
    case IPhoneSE => Size(375.0, 667.0)
    case IPadPro => Size(1024.0, 1366.0)
  }

  function TopSafeArea(d: DeviceType): real {
    match d
    case IPhone14Pro => 59.0
    case IPhone14 => 47.0
    case IPhoneSE => 20.0
    case IPadPro => 24.0
  }

  function BottomSafeArea(d: DeviceType): real {
    match d
    case IPhone14Pro => 34.0
    case IPhone14 => 34.0
    case IPhoneSE => 0.0
    case IPadPro => 20.0
  }

  function LeadingSafeArea(d: DeviceType): real {
    match d
    case IPhone14Pro | IPhone14 | IPhoneSE => 0.0
    case IPadPro => 0.0
  }

  function TrailingSafeArea(d: DeviceType): real {
    match d
    case IPhone14Pro | IPhone14 | IPhoneSE => 0.0
    case IPadPro => 0.0
  }

  /**
   * `contentArea`: the screen less the insets. Adding the insets back gives
   * the screen; on every device the content area is as wide as the screen
   * and strictly shorter than it, but never empty.
   */
  function ContentArea(d: DeviceType): (area: Size)
    ensures area.width + LeadingSafeArea(d) + TrailingSafeArea(d) == ScreenSize(d).width
    ensures area.height + TopSafeArea(d) + BottomSafeArea(d) == ScreenSize(d).height
    ensures area.width == ScreenSize(d).width
    ensures 0.0 < area.height < ScreenSize(d).height
  {
    var width := ScreenSize(d).width - LeadingSafeArea(d) - TrailingSafeArea(d);
    var height := ScreenSize(d).height - TopSafeArea(d) - BottomSafeArea(d);
    Size(width, height)
  }

  /** The content heights the reference shows: 759, 763, 647 and 1322 points. */
  lemma ContentHeights()
    ensures ContentArea(IPhone14Pro) == Size(393.0, 759.0)
    ensures ContentArea(IPhone14) == Size(390.0, 763.0)
    ensures ContentArea(IPhoneSE) == Size(375.0, 647.0)
    ensures ContentArea(IPadPro) == Size(1024.0, 1322.0)
  {
  }

  function HasNotch(d: DeviceType): bool {
    match d
    case IPhone14Pro | IPhone14 => true
    case IPhoneSE | IPadPro => false
  }

  function HasHomeIndicator(d: DeviceType): bool {
    match d
    case IPhone14Pro | IPhone14 => true
    case IPhoneSE | IPadPro => false
  }

  /** The notch and the home indicator are drawn on the same devices, the two current iPhones. */
  lemma NotchMatchesHomeIndicator(d: DeviceType)
    ensures HasNotch(d) == HasHomeIndicator(d)
    ensures HasNotch(d) <==> d == IPhone14Pro || d == IPhone14
  {
  }

  /** The bottom measurement label is drawn only where there is a bottom inset. */
  predicate ShowsBottomLabel(d: DeviceType) {
    BottomSafeArea(d) > 0.0
  }

  /** Only the iPhone SE, which has no home indicator area, goes without the bottom label. */
  lemma BottomLabelAllButSE(d: DeviceType)
    ensures ShowsBottomLabel(d) <==> d != IPhoneSE
  {
  }

  /** Every device has its own display name. */
  lemma DisplayNameInjective(d: DeviceType, e: DeviceType)
    ensures DisplayName(d) == DisplayName(e) <==> d == e
  {
    if d != e {
      assert DisplayName(d) != DisplayName(e) by {
        if |DisplayName(d)| == |DisplayName(e)| {
          assert DisplayName(d)[1] != DisplayName(e)[1] || DisplayName(d)[7] != DisplayName(e)[7];
        }
      }
    }
  }

  /** `min(a, b)`. */
  function Min(a: real, b: real): real { if a <= b then a else b }

  /**
   * The device frame's scale, `min(available width / screen width, 300 /
   * screen height)`: the drawn screen fits the available width and is at
   * most 300 points tall, and one of the two bounds is met exactly.
   */
  function FrameScale(d: DeviceType, availableWidth: real): (scale: real)
    requires availableWidth >= 0.0
    ensures scale >= 0.0 && (availableWidth > 0.0 ==> scale > 0.0)
    ensures ScreenSize(d).width * scale <= availableWidth
    ensures ScreenSize(d).height * scale <= 300.0
    ensures ScreenSize(d).width * scale == availableWidth || ScreenSize(d).height * scale == 300.0
  {
    var size := ScreenSize(d);
    var byWidth := availableWidth / size.width;
    var byHeight := 300.0 / size.height;
    FitsByQuotient(availableWidth, size.width, byWidth, byHeight);
    FitsByQuotient(300.0, size.height, byHeight, byWidth);
    Min(byWidth, byHeight)
  }

  /** Scaling `x` by `bound / x`, or by anything smaller, stays within `bound`. */
  lemma FitsByQuotient(bound: real, x: real, q: real, other: real)
    requires bound >= 0.0 && x > 0.0 && q == bound / x
    ensures q >= 0.0 && (bound > 0.0 ==> q > 0.0) && x * q == bound
    ensures other <= q ==> x * other <= bound
  {
  }
}
