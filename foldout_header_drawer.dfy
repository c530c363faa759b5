/**
 * The property drawer for FoldoutHeaderAttribute: a bold foldout line
 * with the attribute's header, and below it, while open, the property
 * itself, one indent level deeper. Line height and spacing are the
 * editor's metrics, given as non-negative numbers; the foldout control's
 * answer is an input.
 */
module FoldoutHeaderDrawer {

  import opened Attributes

  datatype Rect = Rect(x: real, y: real, width: real, height: real)

  /** EditorGUIUtility.singleLineHeight and standardVerticalSpacing. */
  datatype Metrics = Metrics(singleLineHeight: real, standardVerticalSpacing: real)

  predicate ValidMetrics(m: Metrics) {
    m.singleLineHeight > 0.0 && m.standardVerticalSpacing >= 0.0
  }

  /** GetPropertyHeight as written: childHeight is EditorGUI.GetPropertyHeight of the property with its children. */
  function GetPropertyHeight(expanded: bool, childHeight: real, m: Metrics): real {
    if expanded then childHeight + m.standardVerticalSpacing else m.singleLineHeight
  }

  /** The height reserved under the header once the header line itself is taken out of the row. */
  function RoomUnderHeader(rowHeight: real, m: Metrics): real {
    rowHeight - (m.singleLineHeight + m.standardVerticalSpacing)
  }

  /** The header's rect: the row's top line. */
  function HeaderRect(position: Rect, m: Metrics): (r: Rect)
    ensures r.x == position.x && r.y == position.y && r.width == position.width
    ensures r.height == m.singleLineHeight
  {
    Rect(position.x, position.y, position.width, m.singleLineHeight)
  }

  /** The rect the property is drawn in: the row moved down by a line and a spacing. */
  function ChildRect(position: Rect, m: Metrics): (r: Rect)
    ensures r.y == position.y + m.singleLineHeight + m.standardVerticalSpacing
    ensures r.x == position.x && r.width == position.width && r.height == position.height
  {
    position.(y := position.y + m.singleLineHeight + m.standardVerticalSpacing)
  }

  /**
   * When open, the row the drawer asks for leaves less room under the
   * header than the property needs: the property overruns the row by
   * exactly one line height.
   */
  lemma ExpandedRowTooShort(childHeight: real, m: Metrics)
    requires ValidMetrics(m)
    ensures RoomUnderHeader(GetPropertyHeight(true, childHeight, m), m) == childHeight - m.singleLineHeight
    ensures RoomUnderHeader(GetPropertyHeight(true, childHeight, m), m) < childHeight
  {
  }

  /** The height that fits what OnGUI draws: the header line, a spacing, then the property. */
  function IntendedPropertyHeight(expanded: bool, childHeight: real, m: Metrics): real {
    if expanded then m.singleLineHeight + m.standardVerticalSpacing + childHeight else m.singleLineHeight
  }

  /** With the intended height, an open row holds the header and exactly the property's height under it. */
  lemma IntendedRowFits(expanded: bool, childHeight: real, m: Metrics)
    requires ValidMetrics(m) && childHeight >= 0.0
    ensures expanded ==> RoomUnderHeader(IntendedPropertyHeight(expanded, childHeight, m), m) == childHeight
    ensures !expanded ==> IntendedPropertyHeight(expanded, childHeight, m) == HeaderRect(Rect(0.0, 0.0, 0.0, 0.0), m).height
    ensures IntendedPropertyHeight(expanded, childHeight, m) >= m.singleLineHeight
  {
  }

  /** One PropertyField call: where, and at which indent level. */
  datatype PropertyDraw = PropertyDraw(position: Rect, indentLevel: int)

  /** EditorGUI's static state: the indent level, and the property fields drawn so far. */
  class EditorGUI {
    var indentLevel: int
    var drawn: seq<PropertyDraw>

    constructor ()
      ensures indentLevel == 0 && drawn == []
    {
      indentLevel := 0;
      drawn := [];
    }

    method PropertyField(position: Rect)
      modifies this`drawn
      ensures drawn == old(drawn) + [PropertyDraw(position, indentLevel)]
    {
      drawn := drawn + [PropertyDraw(position, indentLevel)];
    }
  }

  /**
   * OnGUI: foldout is the EditorGUI.Foldout control, answering the new
   * state for a rect, the current state and the header. The attribute's
   * Expanded becomes that answer; an open header draws the property
   * below it one level deeper, and the indent level ends where it began.
   */
  method OnGUI(position: Rect, attribute: FoldoutHeaderAttribute, foldout: (Rect, bool, string) -> bool,
               gui: EditorGUI, m: Metrics)
    modifies attribute`Expanded, gui
    ensures attribute.Expanded == foldout(HeaderRect(position, m), old(attribute.Expanded), attribute.Header)
    ensures attribute.Header == old(attribute.Header)
    ensures gui.indentLevel == old(gui.indentLevel)
    ensures attribute.Expanded ==>
      gui.drawn == old(gui.drawn) + [PropertyDraw(ChildRect(position, m), old(gui.indentLevel) + 1)]
    ensures !attribute.Expanded ==> gui.drawn == old(gui.drawn)
  {
    var foldoutRect := Rect(position.x, position.y, position.width, m.singleLineHeight);
    attribute.Expanded := foldout(foldoutRect, attribute.Expanded, attribute.Header);
    if attribute.Expanded {
      gui.indentLevel := gui.indentLevel + 1;
      var childPosition := position.(y := position.y + m.singleLineHeight + m.standardVerticalSpacing);
      gui.PropertyField(childPosition);
      gui.indentLevel := gui.indentLevel - 1;
    }
  }
}
