/** The wheel-slip plugin of plugins/WheelSlipPlugin.hh: a list of configured
    wheels, each with a lateral and a longitudinal slip compliance, two setters
    that change one compliance on every wheel, and a per-iteration update that
    turns each wheel's spin velocity (radius times spin rate) into the pair of
    ODE force-dependent slip parameters (slip1, slip2; section 7.3.7 of the ODE
    user guide). With the friction direction fdir1 along the joint axis, slip1
    is the lateral slip and slip2 the longitudinal one.

    The solver's wheel state is an input and the slip pair an output; the write
    into the contact surfaces is not modelled. Numbers are exact `real`s. */
module WheelSlip {

  /** One `<wheel>` entry of the plugin's configuration. */
  datatype Wheel = Wheel(linkName: string, complianceLateral: real, complianceLongitudinal: real)

  /** What the update reads from the solver for one wheel. */
  datatype WheelSpin = WheelSpin(radius: real, spinRate: real)

  /** What the update writes for one wheel: the lateral (slip1) and the
      longitudinal (slip2) force-dependent slip. */
  datatype Slip = Slip(lateral: real, longitudinal: real)

  /** Wheel spin velocity: radius times spin rate. */
  function SpinVelocity(spin: WheelSpin): real
  {
    spin.radius * spin.spinRate
  }

  /** Each compliance scaled by the wheel's spin velocity. */
  function WheelSlipOf(w: Wheel, spin: WheelSpin): Slip
  {
    Slip(w.complianceLateral * SpinVelocity(spin), w.complianceLongitudinal * SpinVelocity(spin))
  }

  /** The slips of all configured wheels, in configuration order. */
  function Slips(ws: seq<Wheel>, spins: seq<WheelSpin>): (r: seq<Slip>)
    requires |spins| == |ws|
    ensures |r| == |ws|
  {
    if ws == [] then [] else [WheelSlipOf(ws[0], spins[0])] + Slips(ws[1..], spins[1..])
  }

  /** Every wheel with its lateral compliance replaced by `c`. */
  function WithLateral(ws: seq<Wheel>, c: real): (r: seq<Wheel>)
    ensures |r| == |ws|
    ensures forall i :: 0 <= i < |ws| ==>
              r[i].complianceLateral == c &&
              r[i].complianceLongitudinal == ws[i].complianceLongitudinal &&
              r[i].linkName == ws[i].linkName
  {
    if ws == [] then [] else [ws[0].(complianceLateral := c)] + WithLateral(ws[1..], c)
  }

  /** Every wheel with its longitudinal compliance replaced by `c`. */
  function WithLongitudinal(ws: seq<Wheel>, c: real): (r: seq<Wheel>)
    ensures |r| == |ws|
    ensures forall i :: 0 <= i < |ws| ==>
              r[i].complianceLongitudinal == c &&
              r[i].complianceLateral == ws[i].complianceLateral &&
              r[i].linkName == ws[i].linkName
  {
    if ws == [] then [] else [ws[0].(complianceLongitudinal := c)] + WithLongitudinal(ws[1..], c)
  }

  /** Wheel `i`'s slip is its compliances times its radius times its spin rate. */
  lemma {:induction false} SlipsAt(ws: seq<Wheel>, spins: seq<WheelSpin>, i: nat)
    requires |spins| == |ws| && i < |ws|
    ensures Slips(ws, spins)[i].lateral
         == ws[i].complianceLateral * (spins[i].radius * spins[i].spinRate)
    ensures Slips(ws, spins)[i].longitudinal
         == ws[i].complianceLongitudinal * (spins[i].radius * spins[i].spinRate)
  {
    if i > 0 {
      SlipsAt(ws[1..], spins[1..], i - 1);
    }
  }

  /** The slips depend on the compliances and the current spin only: not on
      link names and not on anything from earlier iterations, so two updates
      with the same compliances, radii and spin rates write the same slips. */
  lemma {:induction false} SlipsDependOnlyOnInputs(
    ws1: seq<Wheel>, ws2: seq<Wheel>, spins: seq<WheelSpin>)
    requires |ws1| == |ws2| == |spins|
    requires forall i :: 0 <= i < |ws1| ==>
               ws1[i].complianceLateral == ws2[i].complianceLateral &&
               ws1[i].complianceLongitudinal == ws2[i].complianceLongitudinal
    ensures Slips(ws1, spins) == Slips(ws2, spins)
  {
    if ws1 != [] {
      assert WheelSlipOf(ws1[0], spins[0]) == WheelSlipOf(ws2[0], spins[0]);
      SlipsDependOnlyOnInputs(ws1[1..], ws2[1..], spins[1..]);
    }
  }

  /** A wheel with zero lateral compliance gets zero lateral slip, whatever
      its spin. */
  lemma {:induction false} ZeroLateralComplianceNoLateralSlip(
    ws: seq<Wheel>, spins: seq<WheelSpin>, i: nat)
    requires |spins| == |ws| && i < |ws| && ws[i].complianceLateral == 0.0
    ensures Slips(ws, spins)[i].lateral == 0.0
  {
    SlipsAt(ws, spins, i);
  }

  /** Setting the same lateral compliance twice is setting it once, and the
      two setters do not interfere with each other. */
  lemma SettersIdempotentAndCommute(ws: seq<Wheel>, lat: real, lon: real)
    ensures WithLateral(WithLateral(ws, lat), lat) == WithLateral(ws, lat)
    ensures WithLongitudinal(WithLongitudinal(ws, lon), lon) == WithLongitudinal(ws, lon)
    ensures WithLateral(WithLongitudinal(ws, lon), lat) == WithLongitudinal(WithLateral(ws, lat), lon)
  {
  }

  /** The four-wheel configuration shown in the plugin's documentation. */
  function ExampleConfig(): (r: seq<Wheel>)
  {
    [ Wheel("wheel_front_left", 0.0, 0.1),
      Wheel("wheel_front_right", 0.0, 0.1),
      Wheel("wheel_rear_left", 0.0, 0.1),
      Wheel("wheel_rear_right", 0.0, 0.1) ]
  }

  /** With the documented configuration, a wheel of radius 0.3 spinning at
      2 rad/s (0.6 m/s) gets longitudinal slip 0.06 and no lateral slip. */
  lemma ExampleConfigSlip(ws: seq<Wheel>, spins: seq<WheelSpin>, i: nat)
    requires ws == ExampleConfig() && |spins| == 4 && i < 4 && spins[i] == WheelSpin(0.3, 2.0)
    ensures Slips(ws, spins)[i] == Slip(0.0, 0.06)
  {
    SlipsAt(ws, spins, i);
    assert ws[i].complianceLateral == 0.0 && ws[i].complianceLongitudinal == 0.1;
  }

  class WheelSlipPlugin {
    /** The configured wheels, in configuration order. */
    var wheels: seq<Wheel>

    /** A plugin whose configuration has been loaded with the given wheels. */
    constructor (configured: seq<Wheel>)
      ensures wheels == configured
    {
      wheels := configured;
    }

    /** Sets the lateral slip compliance of every wheel. */
    method SetSlipComplianceLateral(c: real)
      modifies this
      ensures wheels == WithLateral(old(wheels), c)
    {
      var i := 0;
      while i < |wheels|
        invariant 0 <= i <= |wheels| == |old(wheels)|
        invariant forall k :: 0 <= k < i ==> wheels[k] == old(wheels)[k].(complianceLateral := c)
        invariant forall k :: i <= k < |wheels| ==> wheels[k] == old(wheels)[k]
      {
        wheels := wheels[i := wheels[i].(complianceLateral := c)];
        i := i + 1;
      }
    }

    /** Sets the longitudinal slip compliance of every wheel. */
    method SetSlipComplianceLongitudinal(c: real)
      modifies this
      ensures wheels == WithLongitudinal(old(wheels), c)
    {
      var i := 0;
      while i < |wheels|
        invariant 0 <= i <= |wheels| == |old(wheels)|
        invariant forall k :: 0 <= k < i ==> wheels[k] == old(wheels)[k].(complianceLongitudinal := c)
        invariant forall k :: i <= k < |wheels| ==> wheels[k] == old(wheels)[k]
      {
        wheels := wheels[i := wheels[i].(complianceLongitudinal := c)];
        i := i + 1;
      }
    }

    /** One iteration: the slip pair of every configured wheel, given each
        wheel's current radius and spin rate from the solver. */
    method Update(spins: seq<WheelSpin>) returns (slips: seq<Slip>)
      requires |spins| == |wheels|
      ensures slips == Slips(wheels, spins)
    {
      slips := [];
      var i := 0;
      while i < |wheels|
        invariant 0 <= i <= |wheels|
        invariant slips == Slips(wheels[..i], spins[..i])
      {
        SlipsSnoc(wheels[..i + 1], spins[..i + 1]);
        assert wheels[..i + 1][..i] == wheels[..i];
        assert spins[..i + 1][..i] == spins[..i];
        slips := slips + [WheelSlipOf(wheels[i], spins[i])];
        i := i + 1;
      }
      assert wheels[..i] == wheels;
      assert spins[..i] == spins;
    }
  }

  /** `Slips` built from the back: the last wheel's slip is appended. */
  lemma {:induction false} SlipsSnoc(ws: seq<Wheel>, spins: seq<WheelSpin>)
    requires |spins| == |ws| > 0
    ensures Slips(ws, spins)
         == Slips(ws[..|ws| - 1], spins[..|ws| - 1]) + [WheelSlipOf(ws[|ws| - 1], spins[|ws| - 1])]
  {
    if |ws| > 1 {
      SlipsSnoc(ws[1..], spins[1..]);
      assert ws[1..][..|ws| - 2] == ws[..|ws| - 1][1..];
      assert spins[1..][..|ws| - 2] == spins[..|ws| - 1][1..];
    }
  }
}
