/** The MDSplus node paths of app/data/node_names.py: one path per cathode
    or anode, numbered from 1 with `"{0:02d}"`. */
module NodeNames {
  import opened Text

  const CathodePrefix: string := "discharge.cathodes.cathode_"
  const AnodePrefix: string := "discharge.anodes.anode_"
  const CurrentSuffix: string := ".current"
  const VoltageSuffix: string := ".voltage"

  /** `path` is `prefix`, then the decimal digits of `number` written with
      at least two digits (one leading zero at most, and only then), then
      `suffix`. */
  predicate Numbered(path: string, prefix: string, suffix: string, number: nat)
  {
    |path| >= |prefix| + 2 + |suffix| &&
    path[..|prefix|] == prefix &&
    path[|path| - |suffix|..] == suffix &&
    var digits := path[|prefix|..|path| - |suffix|];
    AllDigits(digits) && DecimalValue(digits) == number &&
    (|digits| == 2 || digits[0] != '0')
  }

  /** A number of one or more digits written by `"{0:d}"` has no leading zero. */
  lemma {:induction false} NoLeadingZero(n: nat)
    requires n >= 1
    ensures NatToString(n)[0] != '0'
  {
    if n >= 10 {
      NoLeadingZero(n / 10);
    }
  }

  lemma NumberedPath(prefix: string, suffix: string, number: nat)
    ensures Numbered(prefix + ZeroPad2(number) + suffix, prefix, suffix, number)
  {
    var digits := ZeroPad2(number);
    var path := prefix + digits + suffix;
    assert path[..|prefix|] == prefix;
    assert path[|path| - |suffix|..] == suffix;
    assert path[|prefix|..|path| - |suffix|] == digits;
    if |digits| != 2 {
      NatToStringLength(number);
      NoLeadingZero(number);
    }
  }

  /** The `n` paths `prefix` + number + `suffix`, for the numbers 1 to `n` in order. */
  function NodePaths(prefix: string, suffix: string, n: nat): (r: seq<string>)
    ensures |r| == n
    ensures forall k | 0 <= k < n :: Numbered(r[k], prefix, suffix, k + 1)
  {
    var r := seq(n, k requires 0 <= k < n => prefix + ZeroPad2(k + 1) + suffix);
    forall k | 0 <= k < n ensures Numbered(r[k], prefix, suffix, k + 1) {
      NumberedPath(prefix, suffix, k + 1);
    }
    r
  }

  /** A path names one number only, so the paths of `NodePaths` are pairwise distinct. */
  lemma NodePathsDistinct(prefix: string, suffix: string, n: nat, a: nat, b: nat)
    requires a < n && b < n && a != b
    ensures NodePaths(prefix, suffix, n)[a] != NodePaths(prefix, suffix, n)[b]
  {
  }

  /** `cathode_current_node_locations(n_cathodes)`. */
  function CathodeCurrentPaths(nCathodes: nat): (r: seq<string>)
    ensures |r| == nCathodes
    ensures forall k | 0 <= k < nCathodes :: Numbered(r[k], CathodePrefix, CurrentSuffix, k + 1)
  {
    NodePaths(CathodePrefix, CurrentSuffix, nCathodes)
  }

  /** `cathode_voltage_node_locations(n_cathodes)`. */
  function CathodeVoltagePaths(nCathodes: nat): (r: seq<string>)
    ensures |r| == nCathodes
    ensures forall k | 0 <= k < nCathodes :: Numbered(r[k], CathodePrefix, VoltageSuffix, k + 1)
  {
    NodePaths(CathodePrefix, VoltageSuffix, nCathodes)
  }

  /** `anode_current_node_locations(n_anodes)`. */
  function AnodeCurrentPaths(nAnodes: nat): (r: seq<string>)
    ensures |r| == nAnodes
    ensures forall k | 0 <= k < nAnodes :: Numbered(r[k], AnodePrefix, CurrentSuffix, k + 1)
  {
    NodePaths(AnodePrefix, CurrentSuffix, nAnodes)
  }

  /** The default twelve cathodes run from "..._01" to "..._12". */
  lemma CathodeExamples()
    ensures CathodeCurrentPaths(12)[0] == "discharge.cathodes.cathode_01.current"
    ensures CathodeVoltagePaths(12)[11] == "discharge.cathodes.cathode_12.voltage"
  {
    assert ZeroPad2(1) == "01";
    assert NatToString(12) == "12";
  }

  /** No anodes give no paths; the hundredth anode takes three digits. */
  lemma AnodeExamples()
    ensures AnodeCurrentPaths(0) == []
    ensures AnodeCurrentPaths(100)[99] == "discharge.anodes.anode_100.current"
  {
    assert NatToString(100) == "100";
  }
}
