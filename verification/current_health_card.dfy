/** The colour rules of src/components/networkdetailed/CurrentHealthCard.tsx. */
module CurrentHealthCard {

  import opened Palette

  /** `CurrentHealth.status`: "healthy" | "warning" | "down". */
  datatype HealthStatus = Healthy | Warn | Down

  function StatusName(st: HealthStatus): string {
    match st
    case Healthy => "healthy"
    case Warn => "warning"
    case Down => "down"
  }

  function LowerChar(c: char): (d: char)
    ensures 'A' <= c <= 'Z' ==> 'a' <= d <= 'z'
    ensures !('A' <= c <= 'Z') ==> d == c
  {
    if 'A' <= c <= 'Z' then (c as int - 'A' as int + 'a' as int) as char else c
  }

  /** `toLowerCase` on the ASCII letters. */
  function ToLower(s: string): (r: string)
    ensures |r| == |s|
    ensures forall i :: 0 <= i < |s| ==> r[i] == LowerChar(s[i])
  {
    seq(|s|, i requires 0 <= i < |s| => LowerChar(s[i]))
  }

  /** `getStatusColor`: the status dot is emerald exactly when the status
      reads "online" in any letter case, rose otherwise. */
  function StatusColor(status: string): (c: Color)
    ensures c == Emerald <==> ToLower(status) == "online"
    ensures c == Emerald || c == Rose
  {
    if ToLower(status) == "online" then Emerald else Rose
  }

  /** `getMetricColor`: rose above 80, amber above 60, emerald otherwise. */
  function MetricColor(v: int): (c: Color)
    ensures c == Rose <==> v > 80
    ensures c == Amber <==> 60 < v <= 80
    ensures c == Emerald <==> v <= 60
  {
    if v > 80 then Rose else if v > 60 then Amber else Emerald
  }

  /** The CPU bar: rose above 80, indigo otherwise. */
  function CpuBarColor(cpu: int): (c: Color)
    ensures c == Rose || c == Indigo
  {
    if cpu > 80 then Rose else Indigo
  }

  /** The thermometer icon: rose above 60, amber otherwise. */
  function TemperatureIconColor(temperature: int): (c: Color)
    ensures c == Rose || c == Amber
  {
    if temperature > 60 then Rose else Amber
  }

  /** The CPU bar turns rose exactly when the CPU figure does. */
  lemma CpuBarMatchesFigure(cpu: int)
    ensures CpuBarColor(cpu) == Rose <==> MetricColor(cpu) == Rose
  {
  }

  /** The thermometer is rose exactly when the temperature, read as a
      metric, is no longer emerald. */
  lemma TemperatureIconMatchesFigure(temperature: int)
    ensures TemperatureIconColor(temperature) == Rose <==> MetricColor(temperature) != Emerald
  {
  }

  /** Letter case does not matter to the status dot. */
  lemma StatusColorIgnoresCase(s: string, s': string)
    requires |s| == |s'|
    requires forall i :: 0 <= i < |s| ==> LowerChar(s[i]) == LowerChar(s'[i])
    ensures StatusColor(s) == StatusColor(s')
  {
    assert ToLower(s) == ToLower(s');
  }

  /** As written, every status the type admits gives a rose dot: the
      comparison is with "online", which `CurrentHealth.status` never holds. */
  lemma StatusDotNeverEmerald(st: HealthStatus)
    ensures StatusColor(StatusName(st)) == Rose
  {
    var n := StatusName(st);
    assert ToLower(n)[0] == LowerChar(n[0]) != 'o';
  }

  /** The evidently intended status dot: the status compared, in lower case,
      with "healthy", the value the card's status type declares for a
      router in good health. Emerald for a healthy router, rose for one
      reporting a warning or down. */
  function IntendedStatusColor(st: HealthStatus): (c: Color)
    ensures c == Emerald <==> st == Healthy
    ensures c == Rose <==> st != Healthy
  {
    var n := StatusName(st);
    assert ToLower("healthy") == "healthy";
    assert st != Healthy ==> ToLower(n)[0] == LowerChar(n[0]) != 'h';
    if ToLower(n) == "healthy" then Emerald else Rose
  }
}
