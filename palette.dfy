/** The three point colours both dashboards draw with. */
module Palette {

  datatype Color = Green | Red | Grey

  /** The colour name handed to the plotting layer. */
  function Name(c: Color): string
  {
    match c
    case Green => "green"
    case Red => "red"
    case Grey => "grey"
  }
}
