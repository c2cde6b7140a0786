/** Logical controls: how the [controls] table of the configuration file is
    turned into signal names (midibox360.py:165-201), and how one signal name
    is read from a snapshot of the gamepad (`get_event`, midibox360.py:97-132). */
module Signals {

  datatype Option<T> = None | Some(value: T)

  /** A value of the [controls] table: a button number or a quoted name
      such as "axis_2" or "up". */
  datatype Setting = Index(n: int) | Name(s: string)

  /** The [controls] table as parsed from the configuration file. */
  datatype Controls = Controls(
    aButton: Setting, bButton: Setting, xButton: Setting, yButton: Setting,
    leftBumper: Setting, rightBumper: Setting, back: Setting, start: Setting,
    leftThumb: Setting, rightThumb: Setting,
    leftTrigger: Setting, rightTrigger: Setting,
    leftStickX: Setting, leftStickY: Setting, rightStickX: Setting, rightStickY: Setting,
    dpadUp: Setting, dpadDown: Setting, dpadLeft: Setting, dpadRight: Setting,
    axisInv: seq<bool>)   // axis_0_inv .. axis_5_inv

  /** The signal names the program derives from the table, and the sign it
      multiplies each of the six axes by. */
  datatype Bindings = Bindings(
    a: Setting, b: Setting, x: Setting, y: Setting,
    leftBumper: Setting, rightBumper: Setting, back: Setting, start: Setting,
    leftThumb: Setting, rightThumb: Setting,
    leftTrigger: Setting, rightTrigger: Setting,
    leftStickUp: Setting, leftStickDown: Setting, leftStickLeft: Setting, leftStickRight: Setting,
    rightStickUp: Setting, rightStickDown: Setting, rightStickLeft: Setting, rightStickRight: Setting,
    hatUp: Setting, hatDown: Setting, hatLeft: Setting, hatRight: Setting,
    inv: seq<int>)
  {
    ghost predicate Valid() {
      |inv| == 6 && forall k :: 0 <= k < 6 ==> inv[k] in {-1, 1}
    }
  }

  /** One polled state of the gamepad: button states, axis positions in
      [-1, 1] and hat positions as (x, y) pairs. */
  datatype Snapshot = Snapshot(buttons: seq<bool>, axes: seq<real>, hats: seq<(int, int)>)

  /** What a signal name stands for once it is recognised. */
  datatype Source =
    | AxisAbove(axis: nat)      // "axis_N": the axis, times its sign, is above 0.5
    | AxisBelow(axis: nat)      // "axis_N_neg": the axis, times its sign, is below -0.5
    | HatAt(x: int, y: int)     // "up", "down", "left", "right": the first hat is exactly there
    | Button(index: int)        // any other value is passed on as a button number
    | Unusable                  // a name that is none of the above cannot be a button number

  function AxisName(k: nat): string
    requires k < 6
  {
    "axis_" + [('0' as int + k) as char]
  }

  /** Adding "_neg" to a setting, which only a name allows. */
  function WithNeg(v: Setting): (r: Option<Setting>)
    ensures r.Some? <==> v.Name?
    ensures r.Some? ==> r.value.Name? && |r.value.s| == |v.s| + 4 && r.value.s[..|v.s|] == v.s
    ensures r.Some? ==> r.value.s[|v.s|..] == "_neg"
  {
    if v.Name? then Some(Name(v.s + "_neg")) else None
  }

  /** The sign each axis is multiplied by: -1 when its inversion flag is set. */
  function Sign(inverted: bool): (r: int)
    ensures r in {-1, 1}
    ensures r == -1 <==> inverted
  {
    if inverted then -1 else 1
  }

  /** Derives signal names from the [controls] table. Stick up and stick left
      read the negative half of their axis, and the right trigger reads the
      negative half of the left trigger's axis when the two share it. Adding
      "_neg" to a button number is a type error in the program, so a table
      that needs it is refused. */
  function Bind(c: Controls): (r: Option<Bindings>)
    requires |c.axisInv| == 6
    ensures r.Some? <==>
      c.leftStickX.Name? && c.leftStickY.Name? && c.rightStickX.Name? && c.rightStickY.Name? &&
      (c.rightTrigger == c.leftTrigger ==> c.leftTrigger.Name?)
    ensures r.Some? ==> r.value.Valid()
    ensures r.Some? ==> forall k :: 0 <= k < 6 ==> (r.value.inv[k] == -1 <==> c.axisInv[k])
    // Buttons and the hat are passed through as configured.
    ensures r.Some? ==> var b := r.value;
      && b.a == c.aButton && b.b == c.bButton && b.x == c.xButton && b.y == c.yButton
      && b.leftBumper == c.leftBumper && b.rightBumper == c.rightBumper
      && b.back == c.back && b.start == c.start
      && b.leftThumb == c.leftThumb && b.rightThumb == c.rightThumb
      && b.hatUp == c.dpadUp && b.hatDown == c.dpadDown && b.hatLeft == c.dpadLeft && b.hatRight == c.dpadRight
    // Up and left are the negative half of a stick's axis, down and right the positive half.
    ensures r.Some? ==> var b := r.value;
      && b.leftStickUp == Name(c.leftStickY.s + "_neg") && b.leftStickDown == c.leftStickY
      && b.leftStickLeft == Name(c.leftStickX.s + "_neg") && b.leftStickRight == c.leftStickX
      && b.rightStickUp == Name(c.rightStickY.s + "_neg") && b.rightStickDown == c.rightStickY
      && b.rightStickLeft == Name(c.rightStickX.s + "_neg") && b.rightStickRight == c.rightStickX
    // The right trigger reads the other half of a shared trigger axis.
    ensures r.Some? ==> var b := r.value;
      && b.leftTrigger == c.leftTrigger
      && b.rightTrigger == (if c.rightTrigger == c.leftTrigger then Name(c.leftTrigger.s + "_neg") else c.rightTrigger)
  {
    var rightTrigger := if c.rightTrigger == c.leftTrigger then WithNeg(c.rightTrigger) else Some(c.rightTrigger);
    var lUp, lLeft := WithNeg(c.leftStickY), WithNeg(c.leftStickX);
    var rUp, rLeft := WithNeg(c.rightStickY), WithNeg(c.rightStickX);
    if rightTrigger.None? || lUp.None? || lLeft.None? || rUp.None? || rLeft.None? then None
    else
      var inv := seq(6, k requires 0 <= k < 6 => Sign(c.axisInv[k]));
      Some(Bindings(
        c.aButton, c.bButton, c.xButton, c.yButton,
        c.leftBumper, c.rightBumper, c.back, c.start, c.leftThumb, c.rightThumb,
        c.leftTrigger, rightTrigger.value,
        lUp.value, c.leftStickY, lLeft.value, c.leftStickX,
        rUp.value, c.rightStickY, rLeft.value, c.rightStickX,
        c.dpadUp, c.dpadDown, c.dpadLeft, c.dpadRight,
        inv))
  }

  /** Which physical input a signal name stands for. */
  function Classify(v: Setting): (src: Source)
    ensures src.Button? <==> v.Index?
    ensures src.Button? ==> src.index == v.n
    ensures src.AxisAbove? || src.AxisBelow? ==> src.axis < 6
  {
    match v
    case Index(n) => Button(n)
    case Name(s) =>
      if |s| == 6 && s[..5] == "axis_" && '0' <= s[5] <= '5' then
        AxisAbove(s[5] as int - '0' as int)
      else if |s| == 10 && s[..5] == "axis_" && '0' <= s[5] <= '5' && s[6..] == "_neg" then
        AxisBelow(s[5] as int - '0' as int)
      else if s == "up" then HatAt(0, 1)
      else if s == "down" then HatAt(0, -1)
      else if s == "left" then HatAt(-1, 0)
      else if s == "right" then HatAt(1, 0)
      else Unusable
  }

  /** Reads one signal from a snapshot; None where the program would raise
      (a name that is not a button number, or a button, axis or hat that the
      gamepad does not have). */
  function GetEvent(v: Setting, inv: seq<int>, js: Snapshot): (r: Option<bool>)
    requires |inv| == 6
    ensures v.Index? ==> (r.Some? <==> 0 <= v.n < |js.buttons|)
    ensures v.Index? && 0 <= v.n < |js.buttons| ==> r == Some(js.buttons[v.n])
    ensures Classify(v).Unusable? ==> r.None?
  {
    var src := Classify(v);
    if src.AxisAbove? || src.AxisBelow? then
      if src.axis < |js.axes| then Some(Passes(Signed(js.axes[src.axis], inv[src.axis]), src.AxisAbove?))
      else None
    else if src.HatAt? then
      if 0 < |js.hats| then Some(js.hats[0] == (src.x, src.y)) else None
    else if src.Button? then
      if 0 <= src.index < |js.buttons| then Some(js.buttons[src.index]) else None
    else None
  }

  /** An axis position multiplied by the axis's sign. */
  function Signed(value: real, sign: int): real {
    value * (sign as real)
  }

  /** The axis threshold test: above 0.5 for the positive half, below -0.5
      for the negative half. */
  function Passes(value: real, positive: bool): bool {
    if positive then value > 0.5 else value < -0.5
  }

  /** The twelve axis names are recognised as the axis and half they name... */
  lemma AxisNamesRecognised(k: nat)
    requires k < 6
    ensures Classify(Name(AxisName(k))) == AxisAbove(k)
    ensures Classify(Name(AxisName(k) + "_neg")) == AxisBelow(k)
  {
    var s := AxisName(k);
    assert s[..5] == "axis_";
    assert (s + "_neg")[..5] == "axis_" && (s + "_neg")[5] == s[5] && (s + "_neg")[6..] == "_neg";
  }

  /** ...and they are the only names recognised as axes; likewise only the
      four compass names are recognised as hat positions. */
  lemma OnlyExactNames(s: string)
    ensures Classify(Name(s)).AxisAbove? ==>
      Classify(Name(s)).axis < 6 && s == AxisName(Classify(Name(s)).axis)
    ensures Classify(Name(s)).AxisBelow? ==>
      Classify(Name(s)).axis < 6 && s == AxisName(Classify(Name(s)).axis) + "_neg"
    ensures Classify(Name(s)).HatAt? ==> s in ["up", "down", "left", "right"]
    ensures !Classify(Name(s)).Button?
  {
    match Classify(Name(s))
    case AxisAbove(k) =>
      assert s == s[..5] + [s[5]];
    case AxisBelow(k) =>
      assert s == s[..5] + [s[5]] + s[6..];
    case _ =>
  }

  /** An axis signal is active exactly when the axis position times its
      sign passes the threshold, 0.5 one way or -0.5 the other. */
  lemma AxisThreshold(k: nat, inv: seq<int>, js: Snapshot)
    requires k < 6 && |inv| == 6 && k < |js.axes|
    ensures GetEvent(Name(AxisName(k)), inv, js) == Some(Signed(js.axes[k], inv[k]) > 0.5)
    ensures GetEvent(Name(AxisName(k) + "_neg"), inv, js) == Some(Signed(js.axes[k], inv[k]) < -0.5)
  {
    AxisNamesRecognised(k);
    assert Classify(Name(AxisName(k))) == AxisAbove(k);
    assert Classify(Name(AxisName(k) + "_neg")) == AxisBelow(k);
  }

  /** Setting an axis's inversion flag swaps its two halves: the positive
      signal under the flipped sign is the negative one under the old sign. */
  lemma InversionSwapsHalves(k: nat, inv: seq<int>, js: Snapshot)
    requires k < 6 && |inv| == 6 && inv[k] in {-1, 1}
    ensures GetEvent(Name(AxisName(k)), inv[k := -inv[k]], js) == GetEvent(Name(AxisName(k) + "_neg"), inv, js)
    ensures GetEvent(Name(AxisName(k) + "_neg"), inv[k := -inv[k]], js) == GetEvent(Name(AxisName(k)), inv, js)
  {
    AxisNamesRecognised(k);
  }

  /** A signal and the same name with "_neg" added can never both be
      active: the pair is either the two halves of one axis or at most one
      of them is readable at all. */
  lemma {:induction false} HalvesExclusive(v: Setting, inv: seq<int>, js: Snapshot)
    requires |inv| == 6 && WithNeg(v).Some?
    ensures !(GetEvent(WithNeg(v).value, inv, js) == Some(true) && GetEvent(v, inv, js) == Some(true))
  {
    if GetEvent(WithNeg(v).value, inv, js) == Some(true) {
      var t := v.s + "_neg";
      OnlyExactNames(t);
      var k := Classify(Name(t)).axis;
      assert v.s == t[..6] == AxisName(k);
      AxisNamesRecognised(k);
    }
  }

  /** Whatever the configuration, stick up and stick down are never active
      together, nor are stick left and stick right, nor (when they share an
      axis) the two triggers; so "down wins over up" and "right wins over
      left" never actually decide anything for an axis-mapped stick. */
  lemma StickHalvesExclusive(c: Controls, js: Snapshot)
    requires |c.axisInv| == 6 && Bind(c).Some?
    ensures var b := Bind(c).value;
      && !(GetEvent(b.leftStickUp, b.inv, js) == Some(true) && GetEvent(b.leftStickDown, b.inv, js) == Some(true))
      && !(GetEvent(b.leftStickLeft, b.inv, js) == Some(true) && GetEvent(b.leftStickRight, b.inv, js) == Some(true))
      && (c.rightTrigger == c.leftTrigger ==>
           !(GetEvent(b.rightTrigger, b.inv, js) == Some(true) && GetEvent(b.leftTrigger, b.inv, js) == Some(true)))
  {
    var b := Bind(c).value;
    HalvesExclusive(c.leftStickY, b.inv, js);
    HalvesExclusive(c.leftStickX, b.inv, js);
    if c.rightTrigger == c.leftTrigger {
      HalvesExclusive(c.leftTrigger, b.inv, js);
    }
  }

  /** The four compass names compare the first hat with (0, 1), (0, -1),
      (-1, 0) and (1, 0); without a hat they cannot be read. */
  lemma HatReads(inv: seq<int>, js: Snapshot)
    requires |inv| == 6
    ensures 0 < |js.hats| ==>
      && GetEvent(Name("up"), inv, js) == Some(js.hats[0] == (0, 1))
      && GetEvent(Name("down"), inv, js) == Some(js.hats[0] == (0, -1))
      && GetEvent(Name("left"), inv, js) == Some(js.hats[0] == (-1, 0))
      && GetEvent(Name("right"), inv, js) == Some(js.hats[0] == (1, 0))
    ensures |js.hats| == 0 ==>
      && GetEvent(Name("up"), inv, js).None? && GetEvent(Name("down"), inv, js).None?
      && GetEvent(Name("left"), inv, js).None? && GetEvent(Name("right"), inv, js).None?
  {
  }

  /** What the derived names read once the table maps a stick or the left
      trigger to axis k: stick up and stick left are active when the signed
      axis is below -0.5, stick down and stick right when it is above 0.5,
      and a right trigger that shares the left trigger's axis reads its
      negative half. The sign is -1 exactly when axis k's inversion flag is set. */
  lemma BoundAxes(c: Controls, k: nat, js: Snapshot)
    requires |c.axisInv| == 6 && Bind(c).Some? && k < 6 && k < |js.axes|
    ensures var b := Bind(c).value;
      var v := Signed(js.axes[k], Sign(c.axisInv[k]));
      && (c.leftStickY == Name(AxisName(k)) ==>
            GetEvent(b.leftStickUp, b.inv, js) == Some(v < -0.5) && GetEvent(b.leftStickDown, b.inv, js) == Some(v > 0.5))
      && (c.leftStickX == Name(AxisName(k)) ==>
            GetEvent(b.leftStickLeft, b.inv, js) == Some(v < -0.5) && GetEvent(b.leftStickRight, b.inv, js) == Some(v > 0.5))
      && (c.leftTrigger == Name(AxisName(k)) ==> GetEvent(b.leftTrigger, b.inv, js) == Some(v > 0.5))
      && (c.leftTrigger == Name(AxisName(k)) && c.rightTrigger == c.leftTrigger ==>
            GetEvent(b.rightTrigger, b.inv, js) == Some(v < -0.5))
  {
    var b := Bind(c).value;
    assert b.inv[k] == Sign(c.axisInv[k]);
    AxisThreshold(k, b.inv, js);
  }

  /** The four compass names read four different hat positions, so at most
      one of them is active in any snapshot. */
  lemma CompassExclusive(inv: seq<int>, js: Snapshot, d1: string, d2: string)
    requires |inv| == 6 && d1 in ["up", "down", "left", "right"] && d2 in ["up", "down", "left", "right"]
    requires GetEvent(Name(d1), inv, js) == Some(true) && GetEvent(Name(d2), inv, js) == Some(true)
    ensures d1 == d2
  {
  }
}
