/** Constants, the compiled-in channel table and the platform-probe matching
    of the SMD tty driver (arch/arm/mach-msm/smd_tty.c). */
module SmdConfig {

  datatype Option<T> = None | Some(value: T)

  /** One byte of a stream. */
  newtype byte = x: int | 0 <= x < 256

  /** Number of slots in the per-device state table. */
  const MaxSmdTtys: nat := 37
  /** Largest chunk the read pump moves in one iteration. */
  const MaxTtyBufSize: nat := 2048
  /** Device index of the loopback port. */
  const LoopbackIdx: nat := 36
  /** Bound of the name comparison done by the probe (from the transport's
      header msm_smd.h, which is not part of this model). */
  const SmdMaxChNameLen: nat := 20

  /** Linux errno values the driver returns (negated). */
  const ENODEV: int := 19
  const ENETRESET: int := 102
  const ETIMEDOUT: int := 110
  const ERESTARTSYS: int := 512

  /** Transport edge identifiers used by the table (from msm_smd.h, which is
      not part of this model). */
  const SmdAppsModem: int := 0
  const SmdAppsWcnss: int := 6

  /** A positive errno as returned, negated, by a failing kernel call. */
  type Errno = e: int | 1 <= e <= 4095 witness 1

  /** One entry of the channel table: device index, SMD port name, optional
      device name (the port name is used when absent) and edge. */
  datatype ChannelConfig = ChannelConfig(ttyDevIndex: nat, portName: string, devName: Option<string>, edge: int)

  /** The compiled-in table. */
  const Configs: seq<ChannelConfig> := [
    ChannelConfig(0, "DS", None, SmdAppsModem),
    ChannelConfig(1, "APPS_FM", None, SmdAppsWcnss),
    ChannelConfig(2, "APPS_RIVA_BT_ACL", None, SmdAppsWcnss),
    ChannelConfig(3, "APPS_RIVA_BT_CMD", None, SmdAppsWcnss),
    ChannelConfig(4, "MBALBRIDGE", None, SmdAppsModem),
    ChannelConfig(5, "APPS_RIVA_ANT_CMD", None, SmdAppsWcnss),
    ChannelConfig(6, "APPS_RIVA_ANT_DATA", None, SmdAppsWcnss),
    ChannelConfig(7, "DATA1", None, SmdAppsModem),
    ChannelConfig(8, "DATA4", None, SmdAppsModem),
    ChannelConfig(11, "DATA11", None, SmdAppsModem),
    ChannelConfig(21, "DATA21", None, SmdAppsModem),
    ChannelConfig(27, "GPSNMEA", None, SmdAppsModem),
    ChannelConfig(36, "LOOPBACK", Some("LOOPBACK_TTY"), SmdAppsModem)
  ]

  /** Every table entry names a slot of the state table, and no slot twice. */
  lemma ConfigsFitTable()
    ensures forall k :: 0 <= k < |Configs| ==> Configs[k].ttyDevIndex < MaxSmdTtys
    ensures forall j, k :: 0 <= j < k < |Configs| ==> Configs[j].ttyDevIndex < Configs[k].ttyDevIndex
  {
  }

  /** The first `n` characters of `s` (all of it when shorter). */
  function Truncate(s: string, n: nat): (r: string)
    ensures |r| <= n && r <= s
    ensures |s| <= n ==> r == s
    ensures |s| > n ==> |r| == n
  {
    if |s| <= n then s else s[..n]
  }

  /** strncmp(a, b, SmdMaxChNameLen) == 0 for strings without NUL bytes: the
      two names agree on their first SmdMaxChNameLen characters, and a name
      shorter than that must agree in full. */
  predicate NameEquals(a: string, b: string)
  {
    Truncate(a, SmdMaxChNameLen) == Truncate(b, SmdMaxChNameLen)
  }

  /** A platform device (id, name) matches a table entry when the entry has a
      device name, the id is the entry's edge and the names agree. */
  predicate ProbeMatches(c: ChannelConfig, pdevId: int, pdevName: string)
  {
    c.devName.Some? && pdevId == c.edge && NameEquals(pdevName, c.devName.value)
  }

  /** Device index of the first entry the platform device matches. */
  function ProbeIndex(configs: seq<ChannelConfig>, pdevId: int, pdevName: string): (r: Option<nat>)
    ensures r.None? <==> forall k :: 0 <= k < |configs| ==> !ProbeMatches(configs[k], pdevId, pdevName)
    ensures r.Some? ==> exists k :: 0 <= k < |configs| && ProbeMatches(configs[k], pdevId, pdevName)
                                    && configs[k].ttyDevIndex == r.value
                                    && forall j :: 0 <= j < k ==> !ProbeMatches(configs[j], pdevId, pdevName)
    decreases |configs|
  {
    if configs == [] then None
    else if ProbeMatches(configs[0], pdevId, pdevName) then Some(configs[0].ttyDevIndex)
    else
      var r := ProbeIndex(configs[1..], pdevId, pdevName);
      assert forall k :: 1 <= k < |configs| ==> configs[k] == configs[1..][k - 1];
      r
  }

  /** ProbeIndex on the entries from `n` on: entry `n` if it matches, else
      the entries after it. */
  lemma ProbeIndexFrom(configs: seq<ChannelConfig>, pdevId: int, pdevName: string, n: nat)
    requires n < |configs|
    ensures ProbeIndex(configs[n..], pdevId, pdevName)
            == if ProbeMatches(configs[n], pdevId, pdevName) then Some(configs[n].ttyDevIndex)
               else ProbeIndex(configs[n + 1..], pdevId, pdevName)
  {
    assert configs[n..][0] == configs[n] && configs[n..][1..] == configs[n + 1..];
  }

  /** The loop of the dummy probe: scan the table in order, skip entries
      without a device name, and stop at the first entry whose edge and name
      match. `found` is false when the probe answers -ENODEV. */
  method FindProbeMatch(configs: seq<ChannelConfig>, pdevId: int, pdevName: string) returns (found: bool, idx: nat)
    ensures found <==> ProbeIndex(configs, pdevId, pdevName).Some?
    ensures found ==> idx == ProbeIndex(configs, pdevId, pdevName).value
  {
    var n := 0;
    while n < |configs|
      invariant 0 <= n <= |configs|
      invariant ProbeIndex(configs, pdevId, pdevName) == ProbeIndex(configs[n..], pdevId, pdevName)
    {
      var c := configs[n];
      ProbeIndexFrom(configs, pdevId, pdevName, n);
      if c.devName.None? {
        n := n + 1;
        continue;
      }
      if pdevId == c.edge && NameEquals(pdevName, c.devName.value) {
        return true, c.ttyDevIndex;
      }
      n := n + 1;
    }
    return false, 0;
  }

  /** The name the platform driver of an entry is registered under: the
      device name, or the port name when the entry has none. */
  function RegisteredName(c: ChannelConfig): (r: string)
    ensures c.devName.Some? ==> r == c.devName.value
    ensures c.devName.None? ==> r == c.portName
  {
    match c.devName
    case Some(d) => d
    case None => c.portName
  }

  /** The table as the probe sees it once initialisation has filled in every
      missing device name with the port name. */
  function Registered(configs: seq<ChannelConfig>): (r: seq<ChannelConfig>)
    ensures |r| == |configs|
    ensures forall k :: 0 <= k < |r| ==>
              r[k].devName == Some(RegisteredName(configs[k]))
              && r[k].ttyDevIndex == configs[k].ttyDevIndex && r[k].edge == configs[k].edge
              && r[k].portName == configs[k].portName
  {
    seq(|configs|, k requires 0 <= k < |configs| => configs[k].(devName := Some(RegisteredName(configs[k]))))
  }

  /** Once registered, the probe of a device whose id is an entry's edge and
      whose name is that entry's registered name completes a slot: the slot of
      that entry or of an earlier entry with the same edge and name. */
  lemma {:induction false} RegisteredEntryIsFound(configs: seq<ChannelConfig>, k: nat)
    requires k < |configs|
    ensures ProbeIndex(Registered(configs), configs[k].edge, RegisteredName(configs[k])).Some?
  {
    var r := Registered(configs);
    assert ProbeMatches(r[k], configs[k].edge, RegisteredName(configs[k]));
  }
}
