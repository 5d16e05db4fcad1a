/** The press/release latch behind the settings open and close buttons.
    A polling task reads the button state; a press arms the latch, and only
    a release while armed fires the panel switch and disarms it. */
module ButtonLatch {

  /** Button states an LVGL button reports. */
  datatype BtnState =
    | Released
    | Pressed
    | Disabled
    | CheckedReleased
    | CheckedPressed
    | CheckedDisabled

  /** Which panel is on screen: the main body or the settings body. */
  datatype View = Main | Settings

  /** Outcome of one poll: whether the latch is armed afterwards, and
      whether this poll fired the switch. */
  datatype Poll = Poll(armed: bool, fired: bool)

  /** One poll of a button latch. */
  function Step(armed: bool, st: BtnState): (p: Poll)
    ensures p.fired <==> st == Released && armed
    ensures p.armed <==> st == Pressed || (armed && st != Released)
  {
    if st == Pressed then Poll(true, false)
    else if st == Released && armed then Poll(false, true)
    else Poll(armed, false)
  }

  /** Latch state and number of switches fired over a sequence of polls. */
  datatype Trace = Trace(armed: bool, fires: nat)

  function Run(armed: bool, polls: seq<BtnState>): Trace
    decreases |polls|
  {
    if polls == [] then Trace(armed, 0)
    else
      var p := Step(armed, polls[0]);
      var rest := Run(p.armed, polls[1..]);
      Trace(rest.armed, rest.fires + (if p.fired then 1 else 0))
  }

  /** Number of Pressed polls in a sequence. */
  function Presses(polls: seq<BtnState>): nat
    decreases |polls|
  {
    if polls == [] then 0
    else Presses(polls[1..]) + (if polls[0] == Pressed then 1 else 0)
  }

  function Bit(b: bool): nat {
    if b then 1 else 0
  }

  /** Latch discipline: every switch is paid for by a distinct earlier press
      (or by the latch being armed at the start), and a latch that is still
      armed at the end holds one unspent press. */
  lemma {:induction false} FiresNeedPresses(armed: bool, polls: seq<BtnState>)
    ensures Run(armed, polls).fires + Bit(Run(armed, polls).armed) <= Presses(polls) + Bit(armed)
    decreases |polls|
  {
    if polls != [] {
      var p := Step(armed, polls[0]);
      FiresNeedPresses(p.armed, polls[1..]);
    }
  }

  /** Without any press, a disarmed latch never fires. */
  lemma NoPressNoSwitch(polls: seq<BtnState>)
    requires Presses(polls) == 0
    ensures Run(false, polls).fires == 0
  {
    FiresNeedPresses(false, polls);
  }
}
