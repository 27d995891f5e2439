/**
  Suffix range validation and the seven ports a suffix stands for
  (portmanager.go). Whether a port can be bound is a property of the host,
  so it enters as the predicate `available`.
*/
module Ports {

  /** The highest valid suffix: 65535 minus the highest base port, 18100. */
  const MaxPortSuffix: int := 47435

  const HighestTcpPort: int := 65535

  /** A port role: its .env key and the base the suffix is added to. */
  datatype PortRole = PortRole(name: string, base: int)

  /** The seven roles, in the order the tool checks and writes them. */
  const PortTable: seq<PortRole> := [
    PortRole("APP_PORT", 8000),
    PortRole("FORWARD_DB_PORT", 3300),
    PortRole("FORWARD_REDIS_PORT", 6300),
    PortRole("FORWARD_MEILISEARCH_PORT", 7700),
    PortRole("FORWARD_MAILPIT_DASHBOARD_PORT", 18100),
    PortRole("FORWARD_MAILPIT_PORT", 1000),
    PortRole("VITE_PORT", 5100)
  ]

  const AppBase: int := 8000

  function PortOf(role: PortRole, suffix: int): int {
    role.base + suffix
  }

  /** Why ValidateSuffix refused a suffix; TooLarge carries the port it would have reached. */
  datatype RangeError = Negative(suffix: int) | TooLarge(suffix: int, highestPort: int)

  datatype Validation = Accepted | Rejected(reason: RangeError)

  /**
    ValidateSuffix: a suffix is accepted exactly when its lowest port
    (FORWARD_MAILPIT_PORT) is at least 1000 and its highest
    (FORWARD_MAILPIT_DASHBOARD_PORT) at most 65535; a refusal names the
    suffix, a negative one is refused as Negative, and a too-large one reports
    the port it would have pushed past 65535. ValidateSuffixIffPortsInRange
    extends this to all seven ports.
  */
  function ValidateSuffix(suffix: int): (v: Validation)
    ensures v.Accepted? <==>
      1000 <= PortOf(PortTable[5], suffix) && PortOf(PortTable[4], suffix) <= HighestTcpPort
    ensures v.Rejected? ==> v.reason.suffix == suffix
    ensures v.Rejected? ==> (v.reason.Negative? <==> suffix < 0)
    ensures v.Rejected? && v.reason.TooLarge? ==> v.reason.highestPort > HighestTcpPort
  {
    assert PortTable[4].base == 18100 && PortTable[5].base == 1000;
    if suffix < 0 then Rejected(Negative(suffix))
    else if suffix > MaxPortSuffix then Rejected(TooLarge(suffix, 18100 + suffix))
    else Accepted
  }

  predicate IsValidSuffix(suffix: int) {
    ValidateSuffix(suffix).Accepted?
  }

  /**
    A suffix is accepted exactly when 0 <= suffix <= MaxPortSuffix, and exactly
    when every one of its seven ports lies in [1000, 65535].
  */
  lemma ValidateSuffixIffPortsInRange(suffix: int)
    ensures IsValidSuffix(suffix) <==> 0 <= suffix <= MaxPortSuffix
    ensures IsValidSuffix(suffix) <==>
      forall i :: 0 <= i < |PortTable| ==> 1000 <= PortOf(PortTable[i], suffix) <= HighestTcpPort
  {
    assert PortTable[4].base == 18100 && PortTable[5].base == 1000;
  }

  /** The boundary cases of the test table. */
  lemma ValidateSuffixExamples()
    ensures IsValidSuffix(0) && IsValidSuffix(48) && IsValidSuffix(47435)
    ensures ValidateSuffix(47436) == Rejected(TooLarge(47436, 65536))
    ensures ValidateSuffix(-1) == Rejected(Negative(-1))
    ensures !IsValidSuffix(100000)
  {
  }

  /** The seven ports of one suffix are pairwise different. */
  lemma PortsDistinct(suffix: int)
    ensures forall i, j :: 0 <= i < j < |PortTable| ==> PortOf(PortTable[i], suffix) != PortOf(PortTable[j], suffix)
  {
  }

  /**
    Different suffixes do not give disjoint port families: suffix 0's APP_PORT
    is suffix 1700's FORWARD_REDIS_PORT, although both suffixes are valid.
  */
  lemma DistinctSuffixesCanSharePorts()
    ensures IsValidSuffix(0) && IsValidSuffix(1700)
    ensures PortOf(PortTable[0], 0) == PortOf(PortTable[2], 1700) == 8000
  {
  }

  /** A port that could not be bound, with its role's name. */
  datatype BusyPort = BusyPort(name: string, port: int)

  /** The busy ports among `roles` for `suffix`, in table order: at most one per role, none bindable. */
  function Busy(roles: seq<PortRole>, suffix: int, available: int -> bool): (busy: seq<BusyPort>)
    ensures |busy| <= |roles|
    ensures forall k :: 0 <= k < |busy| ==> !available(busy[k].port)
    decreases |roles|
  {
    if |roles| == 0 then []
    else
      var rest := Busy(roles[1..], suffix, available);
      var port := PortOf(roles[0], suffix);
      if available(port) then rest else [BusyPort(roles[0].name, port)] + rest
  }

  /** Probing role i adds it to the busy ports exactly when it cannot be bound. */
  lemma BusyStep(roles: seq<PortRole>, i: nat, suffix: int, available: int -> bool)
    requires i < |roles|
    ensures Busy(roles[i..], suffix, available) ==
      (if available(PortOf(roles[i], suffix)) then [] else [BusyPort(roles[i].name, PortOf(roles[i], suffix))])
      + Busy(roles[i + 1..], suffix, available)
  {
    assert roles[i..][1..] == roles[i + 1..];
  }

  /** A port is reported busy exactly when some role maps to it and it cannot be bound. */
  lemma {:induction false} BusyMembership(roles: seq<PortRole>, suffix: int, available: int -> bool, b: BusyPort)
    ensures b in Busy(roles, suffix, available) <==>
      exists i :: 0 <= i < |roles| && b == BusyPort(roles[i].name, PortOf(roles[i], suffix)) && !available(b.port)
    decreases |roles|
  {
    if |roles| > 0 {
      BusyMembership(roles[1..], suffix, available, b);
      if b in Busy(roles[1..], suffix, available) {
        var i :| 0 <= i < |roles| - 1 && b == BusyPort(roles[1..][i].name, PortOf(roles[1..][i], suffix)) && !available(b.port);
        assert roles[i + 1] == roles[1..][i];
      }
      forall i | 1 <= i < |roles| && b == BusyPort(roles[i].name, PortOf(roles[i], suffix)) && !available(b.port)
        ensures b in Busy(roles[1..], suffix, available)
      {
        assert roles[1..][i - 1] == roles[i];
      }
    }
  }

  /** CheckSuffixPortsAvailable: probe the seven ports of `suffix` and collect the busy ones. */
  method CheckSuffixPortsAvailable(suffix: int, available: int -> bool) returns (busy: seq<BusyPort>)
    ensures busy == Busy(PortTable, suffix, available)
  {
    busy := [];
    for i := 0 to |PortTable|
      invariant busy + Busy(PortTable[i..], suffix, available) == Busy(PortTable, suffix, available)
    {
      var p := PortTable[i];
      BusyStep(PortTable, i, suffix, available);
      if !available(PortOf(p, suffix)) {
        busy := busy + [BusyPort(p.name, PortOf(p, suffix))];
      }
    }
    assert PortTable[|PortTable|..] == [];
  }
}
