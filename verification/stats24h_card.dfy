/** The display rules of src/components/networkdetailed/Stats24hCard.tsx. */
module Stats24hCard {
  import opened Wrappers
  import opened Decimal
  import opened Palette

  /** How reassuring a colour is: rose < amber < emerald. */
  function Grade(c: Color): nat
    requires c != Indigo
  {
    match c
    case Rose => 0
    case Amber => 1
    case Emerald => 2
  }

  /** `getReliabilityColor`: emerald from 99.9 percent uptime, amber from 95,
      rose below. */
  function ReliabilityColor(uptime: real): (c: Color)
    ensures c == Emerald <==> uptime >= 99.9
    ensures c == Amber <==> 95.0 <= uptime < 99.9
    ensures c == Rose <==> uptime < 95.0
  {
    if uptime >= 99.9 then Emerald else if uptime >= 95.0 then Amber else Rose
  }

  /** More uptime never gives a worse colour. */
  lemma ReliabilityMonotone(u: real, u': real)
    requires u <= u'
    ensures Grade(ReliabilityColor(u)) <= Grade(ReliabilityColor(u'))
  {
  }

  /** The "Current Down" line: the minutes when positive, "None (Stable)"
      otherwise. */
  function CurrentDownText(minutes: int): (s: string)
    ensures minutes > 0 ==> s == NatToString(minutes) + " min"
    ensures minutes <= 0 ==> s == "None (Stable)"
  {
    if minutes > 0 then IntToString(minutes) + " min" else "None (Stable)"
  }

  /** The "Max Temp" figure, `{max_temperature ?? "N/A"}°`: only a missing
      reading shows "N/A"; a reading of zero still shows "0". */
  function MaxTemperatureText(t: Option<int>): (s: string)
    ensures t.None? ==> s == "N/A°"
    ensures t.Some? ==> s == IntToString(t.value) + "°"
  {
    (if t.Some? then IntToString(t.value) else "N/A") + "°"
  }

  /** The "Current Down" line tells a stable router from one that is down,
      and tells apart different outage lengths. */
  lemma CurrentDownTextFaithful(a: int, b: int)
    ensures CurrentDownText(a) == "None (Stable)" <==> a <= 0
    ensures a > 0 && b > 0 && CurrentDownText(a) == CurrentDownText(b) ==> a == b
  {
    if a > 0 {
      var s := CurrentDownText(a);
      assert s[|s| - 1] == 'n';
      assert "None (Stable)"[12] == ')';
    }
    if a > 0 && b > 0 && CurrentDownText(a) == CurrentDownText(b) {
      var sa := NatToString(a);
      var sb := NatToString(b);
      assert (sa + " min")[..|sa|] == sa;
      assert (sb + " min")[..|sb|] == sb;
      NatToStringInjective(a, b);
    }
  }

  /** The "Max Temp" figure loses nothing: a present reading never shows as
      "N/A", and distinct readings show differently. */
  lemma MaxTemperatureTextFaithful(a: Option<int>, b: Option<int>)
    ensures a.Some? ==> MaxTemperatureText(a) != "N/A°"
    ensures MaxTemperatureText(a) == MaxTemperatureText(b) ==> a == b
  {
    if a.Some? {
      assert MaxTemperatureText(a)[0] == IntToString(a.value)[0];
      assert "N/A°"[0] == 'N';
    }
    if b.Some? {
      assert MaxTemperatureText(b)[0] == IntToString(b.value)[0];
      assert "N/A°"[0] == 'N';
    }
    if a.Some? && b.Some? && MaxTemperatureText(a) == MaxTemperatureText(b) {
      var sa := IntToString(a.value);
      var sb := IntToString(b.value);
      assert |sa| == |sb|;
      assert sa == (sa + "°")[..|sa|] == (sb + "°")[..|sb|] == sb;
      IntToStringInjective(a.value, b.value);
    }
  }

  /** A zero reading is shown as a number, not as missing. */
  lemma ZeroTemperatureIsNotMissing()
    ensures MaxTemperatureText(Some(0)) == "0°"
    ensures MaxTemperatureText(Some(0)) != MaxTemperatureText(None)
  {
    assert NatToString(0) == "0";
  }
}
