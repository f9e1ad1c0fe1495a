/** The platforms the app runs on, as React Native's `Platform.OS` names them. */
module Platforms {
  datatype Platform = IOS | Android | Web
}
