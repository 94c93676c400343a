/**
 * How cloud.core.instance.js shows an instance's state: the right panel's state element
 * gets exactly one of the classes green, red and gray, and the mid-menu item's status
 * icon is the image of the same colour.
 */
module InstanceDisplay {

  datatype Colour = Green | Red | Gray

  /** Running is green, Stopped is red, any other state (Destroyed, Creating, the empty text) is gray. */
  function StateColour(state: string): (c: Colour)
    ensures c == Green <==> state == "Running"
    ensures c == Red <==> state == "Stopped"
    ensures c == Gray <==> (state != "Running" && state != "Stopped")
  {
    if state == "Running" then Green
    else if state == "Stopped" then Red
    else Gray
  }

  function ColourClass(c: Colour): string
  {
    match c
    case Green => "green"
    case Red => "red"
    case Gray => "gray"
  }

  const ColourClasses: set<string> := {"green", "red", "gray"}

  /**
   * updateVirtualMachineStateInRightPanel on the class list of the state element: after
   * it, exactly one colour class is present, the one of the state, and every other class
   * is as it was.
   */
  function RightPanelStateClasses(classes: set<string>, state: string): (r: set<string>)
    ensures r * ColourClasses == {ColourClass(StateColour(state))}
    ensures r - ColourClasses == classes - ColourClasses
  {
    var c := StateColour(state);
    if c == Green then (classes - {"red", "gray"}) + {"green"}
    else if c == Red then (classes - {"green", "gray"}) + {"red"}
    else (classes - {"green", "red"}) + {"gray"}
  }

  /** updateVirtualMachineStateInMidMenu: the status icon's image, of the state's colour. */
  function StatusIcon(state: string): (src: string)
    ensures src == "images/status_" + ColourClass(StateColour(state)) + ".png"
  {
    if state == "Running" then "images/status_green.png"
    else if state == "Stopped" then "images/status_red.png"
    else "images/status_gray.png"
  }

  /** Two states get the same status icon exactly when they get the same colour in the right panel. */
  lemma StatusIconMatchesPanel(s1: string, s2: string)
    ensures StatusIcon(s1) == StatusIcon(s2) <==> RightPanelStateClasses({}, s1) == RightPanelStateClasses({}, s2)
  {
    var c1, c2 := ColourClass(StateColour(s1)), ColourClass(StateColour(s2));
    assert RightPanelStateClasses({}, s1) == {c1} by {
      assert RightPanelStateClasses({}, s1) * ColourClasses == {c1};
    }
    assert RightPanelStateClasses({}, s2) == {c2} by {
      assert RightPanelStateClasses({}, s2) * ColourClasses == {c2};
    }
    if c1 != c2 {
      assert StatusIcon(s1)[16] != StatusIcon(s2)[16];
    }
  }
}
