/** The SwiftUI colours the modelled screens choose between (opacity is presentation and is dropped). */
module Palette {

  datatype Tint = Blue | Cyan | White | Orange | Red | Green
}
