/** `DeviceOrientation`: the four device poses and what the status bar shows for each. */
module Orientation {

  import opened Palette

  datatype DeviceOrientation = Flat | Tilted | Vertical | EyeLevel

  /** SF Symbol shown for the pose. */
  function IconName(o: DeviceOrientation): string
  {
    match o
    case Flat => "iphone.landscape"
    case Tilted => "iphone.landscape.slash"
    case Vertical => "iphone"
    case EyeLevel => "checkmark.circle.fill"
  }

  function Description(o: DeviceOrientation): string
  {
    match o
    case Flat => "Rotate"
    case Tilted => "Adjust"
    case Vertical => "Optimal"
    case EyeLevel => "Optimal"
  }

  function Color(o: DeviceOrientation): Tint
  {
    match o
    case Flat => Red
    case Tilted => Orange
    case Vertical => Green
    case EyeLevel => Green
  }

  lemma IconNamesDistinct(o: DeviceOrientation, p: DeviceOrientation)
    requires o != p
    ensures IconName(o) != IconName(p)
  {
  }

  /** The label reads "Optimal" exactly for the poses drawn green, which are vertical and eye level. */
  lemma OptimalExactlyWhenGreen(o: DeviceOrientation)
    ensures Description(o) == "Optimal" <==> Color(o) == Green
    ensures Color(o) == Green <==> o == Vertical || o == EyeLevel
  {
  }
}
