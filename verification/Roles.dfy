/** The two sides of a pairing (`token.Role`). */
module Roles {

  datatype Role = Mobile | Desktop
  {
    function Opposite(): Role {
      match this
      case Mobile => Desktop
      case Desktop => Mobile
    }
  }
}
