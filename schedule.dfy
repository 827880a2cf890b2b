/** The bath temperature schedule: a linear ramp from Ti to Tmax over toTmax minutes,
    then a hold at Tmax. Time t is in seconds. */
module Schedule {
  import opened Config

  /** Length of the ramp in seconds. */
  function RampEnd(p: Params): real
  {
    p.toTmax * 60.0
  }

  /** The ramp formula, defined wherever its slope is. */
  function Ramp(p: Params, t: real): real
    requires p.toTmax != 0.0
  {
    p.ti + ((p.tmax - p.ti) / RampEnd(p)) * t
  }

  /** temp(t) without its logging. The ramp branch divides by toTmax*60, which is zero
      only when toTmax is zero, and then the branch is taken only for t < 0. */
  function TempAt(p: Params, t: real): (temp: real)
    requires p.toTmax != 0.0 || t >= 0.0
    ensures t >= RampEnd(p) ==> temp == p.tmax
  {
    if t < RampEnd(p) then Ramp(p, t) else p.tmax
  }

  /** From the end of the ramp on, the bath holds at Tmax. */
  lemma TempHold(p: Params, t: real)
    requires t >= RampEnd(p)
    ensures TempAt(p, t) == p.tmax
  {
  }

  /** At t = 0 the bath is at Ti whenever the ramp has positive length. */
  lemma TempStart(p: Params)
    requires p.toTmax > 0.0
    ensures TempAt(p, 0.0) == p.ti
  {
  }

  /** The ramp formula reaches exactly Tmax at the end of the ramp, so the schedule is
      continuous there. */
  lemma RampMeetsHold(p: Params)
    requires p.toTmax != 0.0
    ensures Ramp(p, RampEnd(p)) == p.tmax
  {
    var d := RampEnd(p);
    assert ((p.tmax - p.ti) / d) * d == p.tmax - p.ti;
  }

  /** Just before the end of the ramp the schedule is within slope × e of Tmax, and the gap
      closes linearly as e goes to zero. */
  lemma TempNearRampEnd(p: Params, e: real)
    requires p.toTmax > 0.0 && 0.0 < e <= RampEnd(p)
    ensures p.tmax - TempAt(p, RampEnd(p) - e) == ((p.tmax - p.ti) / RampEnd(p)) * e
  {
    var d := RampEnd(p);
    var s := (p.tmax - p.ti) / d;
    RampMeetsHold(p);
    assert Ramp(p, d - e) == p.ti + s * d - s * e;
  }

  /** With Tmax >= Ti and a ramp of positive length, the schedule never decreases. */
  lemma TempMonotone(p: Params, t1: real, t2: real)
    requires p.toTmax > 0.0 && p.tmax >= p.ti
    requires t1 <= t2
    ensures TempAt(p, t1) <= TempAt(p, t2)
  {
    var d := RampEnd(p);
    var s := (p.tmax - p.ti) / d;
    assert s >= 0.0;
    assert s * t1 <= s * t2 by {
      assert s * t2 - s * t1 == s * (t2 - t1);
    }
    if t1 < d && t2 >= d {
      RampMeetsHold(p);
      assert s * t1 <= s * d by {
        assert s * d - s * t1 == s * (d - t1);
      }
    }
  }

  /** From t = 0 on, the bath temperature stays between Ti and Tmax. */
  lemma TempBounds(p: Params, t: real)
    requires p.toTmax > 0.0 && p.tmax >= p.ti && t >= 0.0
    ensures p.ti <= TempAt(p, t) <= p.tmax
  {
    TempMonotone(p, 0.0, t);
    TempMonotone(p, t, RampEnd(p) + t);
  }
}
