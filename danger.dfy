/**
 * The danger timer: while the player overlaps a mob the elapsed frame time
 * accumulates, the player's colour warns in three bands, and at the limit
 * the game is lost; a frame without overlap resets it.
 */
module Danger {
  import opened Characters
  import opened Sums

  const DangerLimit := 3000
  const RedBand := 2000
  const OrangeBand := 1000
  const YellowBand := 500

  /** The timer after one frame, whether that frame ends the game, and the player's colour. */
  datatype DangerOutcome = DangerOutcome(timer: int, endsGame: bool, colour: Colour)

  /**
   * One frame of the danger timer, given the current timer, whether the
   * player touches any mob, the frame time and the current colour. Below
   * the yellow band, and on the losing frame, the colour is left as it was.
   */
  function DangerStep(timer: int, touching: bool, dt: nat, colour: Colour): (o: DangerOutcome)
    ensures !touching ==> o == DangerOutcome(0, false, Green)
    ensures touching ==> o.timer == timer + dt
    ensures o.endsGame <==> touching && timer + dt >= DangerLimit
    ensures touching && RedBand <= o.timer < DangerLimit ==> o.colour == Red
    ensures touching && OrangeBand <= o.timer < RedBand ==> o.colour == Orange
    ensures touching && YellowBand <= o.timer < OrangeBand ==> o.colour == Yellow
    ensures touching && (o.timer < YellowBand || DangerLimit <= o.timer) ==> o.colour == colour
  {
    if touching then
      var t := timer + dt;
      if t >= DangerLimit then DangerOutcome(t, true, colour)
      else if t >= RedBand then DangerOutcome(t, false, Red)
      else if t >= OrangeBand then DangerOutcome(t, false, Orange)
      else if t >= YellowBand then DangerOutcome(t, false, Yellow)
      else DangerOutcome(t, false, colour)
    else
      DangerOutcome(0, false, Green)
  }

  /** The timer after frames of uninterrupted overlap, and whether any of them ended the game. */
  datatype Run = Run(timer: int, ended: bool)

  function Overlapped(timer: int, dts: seq<nat>): Run
  {
    if |dts| == 0 then Run(timer, false)
    else
      var r := Overlapped(timer, dts[..|dts| - 1]);
      var o := DangerStep(r.timer, true, dts[|dts| - 1], Green);
      Run(o.timer, r.ended || o.endsGame)
  }

  /**
   * Standing on a mob without interruption: the timer is the total elapsed
   * time, and the game is lost exactly when that total reaches the limit.
   */
  lemma {:induction false} OverlapEndsGameAtLimit(timer: int, dts: seq<nat>)
    requires 0 <= timer < DangerLimit
    ensures Overlapped(timer, dts).timer == timer + Sum(dts)
    ensures Overlapped(timer, dts).ended <==> timer + Sum(dts) >= DangerLimit
  {
    if |dts| > 0 {
      OverlapEndsGameAtLimit(timer, dts[..|dts| - 1]);
    }
  }
}
