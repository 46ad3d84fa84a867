/**
 * The two scale hints handed to the control as extended properties: the
 * display scaling percentage is mapped onto the fixed tiers the remote
 * display protocol understands.
 */
module Scale {

  /** The desktop scale factor for a scaling percentage. */
  function DesktopScaleFactor(percent: int): (r: int)
    ensures r in {100, 125, 150, 200}
    ensures r == 125 <==> percent == 125
    ensures r == 150 <==> percent == 150 || percent == 175
    ensures r == 200 <==> percent >= 200
  {
    if percent == 125 then 125
    else if percent == 150 || percent == 175 then 150
    else if percent == 200 then 200
    else if percent > 200 then 200
    else 100
  }

  /** The device scale factor for a scaling percentage. */
  function DeviceScaleFactor(percent: int): (r: int)
    ensures r in {100, 140, 180}
    ensures r == 140 <==> percent == 125 || percent == 150 || percent == 175
    ensures r == 180 <==> percent >= 200
  {
    if percent == 125 || percent == 150 || percent == 175 then 140
    else if percent == 200 then 180
    else if percent > 200 then 180
    else 100
  }

  /** The device tier that goes with each desktop tier. */
  function DeviceTierOf(desktop: int): int
  {
    if desktop == 100 then 100 else if desktop == 200 then 180 else 140
  }

  /** The two hints always agree: the desktop tier determines the device tier,
      and no scaling (100) on one side means none on the other. */
  lemma ScaleTiersAgree(percent: int)
    ensures DeviceScaleFactor(percent) == DeviceTierOf(DesktopScaleFactor(percent))
    ensures DesktopScaleFactor(percent) == 100 <==> DeviceScaleFactor(percent) == 100
  {
  }
}
