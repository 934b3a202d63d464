/** Local-time timestamps of both loggers (`toLocalISOString` in
    src/services/logger/main.ts and src/logger/main.ts): the UTC ISO string
    of the shifted clock with its trailing `Z` replaced by the offset. */
module LocalTime {
  import opened Wrappers
  import opened Strings

  function Abs(x: int): nat {
    if x < 0 then -x else x
  }

  /** `s.slice(0, -1)`: everything but the last character. */
  function DropLast(s: string): (r: string)
    ensures |s| > 0 ==> r == s[..|s| - 1]
    ensures |s| == 0 ==> r == []
  {
    if |s| == 0 then [] else s[..|s| - 1]
  }

  /** A decimal number padded to at least two digits. */
  function TwoDigits(n: nat): (r: string)
    ensures |r| >= 2 && (n < 100 ==> |r| == 2)
    ensures forall i :: 0 <= i < |r| ==> IsDigit(r[i])
    ensures DecimalValue(r) == n
  {
    DecimalValueOfNatToString(n);
    DecimalValueZeroPad(NatToString(n), 2);
    PadStart(NatToString(n), 2, '0')
  }

  /** Minutes split into whole hours and the rest. */
  lemma SplitMinutes(a: nat)
    ensures 60 * (a / 60) + a % 60 == a && a % 60 < 60
    ensures a < 6000 ==> a / 60 < 100
  {
  }

  /** `sign`, `h` padded to two digits, a colon, and `m` padded likewise. */
  function Assemble(sign: char, h: nat, m: nat): (r: string)
    requires sign == '+' || sign == '-'
    requires m < 60
    ensures |r| >= 6 && r[0] == sign && r[|r| - 3] == ':'
    ensures h < 100 ==> |r| == 6
    ensures ParseSuffix(r) == Some(if sign == '+' then 60 * h + m else -(60 * h + m))
    ensures '[' !in r
  {
    var hh := TwoDigits(h);
    var mm := TwoDigits(m);
    NoBracketIn(sign, hh, mm);
    AssembledParts(sign, hh, mm);
    ParseAssembled(sign, hh, mm, h, m, if sign == '+' then 60 * h + m else -(60 * h + m));
    [sign] + hh + ":" + mm
  }

  /** The sign of the zone east of UTC, for `getTimezoneOffset()` = `offset`. */
  function SignOf(offset: int): char {
    if offset <= 0 then '+' else '-'
  }

  function Hours(offset: int): nat {
    Abs(offset) / 60
  }

  function Minutes(offset: int): nat {
    Abs(offset) % 60
  }

  /** Sign, hours and minutes put back together give the zone. */
  lemma ZoneParts(offset: int)
    ensures Minutes(offset) < 60 && (Abs(offset) < 6000 ==> Hours(offset) < 100)
    ensures (if SignOf(offset) == '+' then 60 * Hours(offset) + Minutes(offset)
             else -(60 * Hours(offset) + Minutes(offset))) == -offset
  {
    SplitMinutes(Abs(offset));
  }

  /** The `±hh:mm` suffix for `Date.getTimezoneOffset()` = `offset` minutes
      (UTC minus local time, so its sign is flipped): `+` exactly when the
      local zone is not behind UTC, then whole hours and remaining minutes.
      Read back, it gives the zone's minutes east of UTC. */
  function TimezoneSuffix(offset: int): (r: string)
    ensures |r| >= 6 && r[|r| - 3] == ':'
    ensures r[0] == (if offset <= 0 then '+' else '-')
    ensures Abs(offset) < 6000 ==> |r| == 6
    ensures ParseSuffix(r) == Some(-offset)
    ensures '[' !in r
  {
    ZoneParts(offset);
    Assemble(SignOf(offset), Hours(offset), Minutes(offset))
  }

  predicate AllDigits(s: string)
    decreases |s|
  {
    |s| == 0 || (IsDigit(s[0]) && AllDigits(s[1..]))
  }

  lemma {:induction false} AllDigitsMeans(s: string)
    ensures AllDigits(s) <==> forall i :: 0 <= i < |s| ==> IsDigit(s[i])
    decreases |s|
  {
    if |s| > 0 {
      AllDigitsMeans(s[1..]);
      assert forall i :: 1 <= i < |s| ==> s[i] == s[1..][i - 1];
    }
  }

  /** Reads a `±h…h:mm` suffix back as minutes east of UTC. */
  function ParseSuffix(s: string): (r: Option<int>)
    ensures r.Some? ==> |s| >= 6 && (s[0] == '+' || s[0] == '-')
  {
    if |s| < 6 || (s[0] != '+' && s[0] != '-') || s[|s| - 3] != ':' then None
    else ParseParts(s[0], s[1..|s| - 3], s[|s| - 2..])
  }

  /** The signed value of hour and minute digits. */
  function ParseParts(sign: char, hours: string, minutes: string): Option<int> {
    if !AllDigits(hours) || !AllDigits(minutes) then None
    else
      AllDigitsMeans(hours);
      AllDigitsMeans(minutes);
      var magnitude := 60 * DecimalValue(hours) + DecimalValue(minutes);
      Some(if sign == '+' then magnitude else -magnitude)
  }

  lemma AssembledParts(sign: char, hh: string, mm: string)
    requires |mm| == 2
    ensures var s := [sign] + hh + ":" + mm;
      && |s| == |hh| + 4 && s[0] == sign && s[|s| - 3] == ':'
      && s[1..|s| - 3] == hh && s[|s| - 2..] == mm
  {
    var s := [sign] + hh + ":" + mm;
    assert s[1..|s| - 3] == hh;
    assert s[|s| - 2..] == mm;
  }

  /** A suffix assembled from a sign, hours `h` and two minute digits `m`
      reads back as the signed total of minutes. */
  lemma ParseAssembled(sign: char, hh: string, mm: string, h: nat, m: nat, v: int)
    requires sign == '+' || sign == '-'
    requires |hh| >= 2 && |mm| == 2
    requires forall i :: 0 <= i < |hh| ==> IsDigit(hh[i])
    requires forall i :: 0 <= i < |mm| ==> IsDigit(mm[i])
    requires DecimalValue(hh) == h && DecimalValue(mm) == m
    requires v == if sign == '+' then 60 * h + m else -(60 * h + m)
    ensures ParseSuffix([sign] + hh + ":" + mm) == Some(v)
  {
    AssembledParts(sign, hh, mm);
    assert ParseSuffix([sign] + hh + ":" + mm) == ParseParts(sign, hh, mm);
    AllDigitsMeans(hh);
    AllDigitsMeans(mm);
  }

  /** A sign, digits and a colon hold no `[`, the character that opens a
      log line's tags. */
  lemma NoBracketIn(sign: char, hh: string, mm: string)
    requires sign != '['
    requires forall i :: 0 <= i < |hh| ==> IsDigit(hh[i])
    requires forall i :: 0 <= i < |mm| ==> IsDigit(mm[i])
    ensures '[' !in [sign] + hh + ":" + mm
  {
    assert '[' !in hh && '[' !in mm;
  }

  /** `toLocalISOString`: `iso` is `toISOString()` of the clock shifted by
      the offset; its last character (the `Z`) gives way to the suffix. */
  function LocalIsoString(iso: string, offset: int): (r: string)
    ensures |r| == |DropLast(iso)| + |TimezoneSuffix(offset)|
    ensures |iso| > 0 ==> r[..|iso| - 1] == iso[..|iso| - 1]
    ensures r[|r| - |TimezoneSuffix(offset)|..] == TimezoneSuffix(offset)
  {
    DropLast(iso) + TimezoneSuffix(offset)
  }
}
