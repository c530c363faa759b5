/** The runtime attribute that puts a collapsible header above a serialized field. */
module Attributes {

  /** The header text and the open or closed state, which the drawer updates. */
  class FoldoutHeaderAttribute {
    var Header: string
    var Expanded: bool

    /** A new header is open. */
    constructor (header: string)
      ensures Header == header
      ensures Expanded
    {
      Header := header;
      Expanded := true;
    }
  }
}
