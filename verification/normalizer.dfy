/** Flattening of a decoded statistics payload into the three field maps the
    plugin hands to the accumulator (plugins/inputs/arangodb/arangodb.go,
    lines 163-184). */
module Normalizer {
  import opened Results
  import opened ArangoTypes

  /** The field names the plugin writes. Each is sent under the string Name() gives. */
  datatype FieldKey =
    | MajorPageFaults | MinorPageFaults | NumberOfThreads | ResidentSize
    | SystemTime | UserTime | VirtualSize
    | PhysicalMemory | Uptime
    | Req0_01 | Req0_05 | Req0_1 | Req0_2 | Req0_5 | Req1 | Count | Sum
  {
    /** The key as it appears in the field map handed to the accumulator. */
    function Name(): string {
      match this
      case MajorPageFaults => "majorPageFaults"
      case MinorPageFaults => "minorPageFaults"
      case NumberOfThreads => "numberOfThreads"
      case ResidentSize => "residentSize"
      case SystemTime => "systemTime"
      case UserTime => "userTime"
      case VirtualSize => "virtualSize"
      case PhysicalMemory => "physicalMemory"
      case Uptime => "uptime"
      case Req0_01 => "req_0.01"
      case Req0_05 => "req_0.05"
      case Req0_1 => "req_0.1"
      case Req0_2 => "req_0.2"
      case Req0_5 => "req_0.5"
      case Req1 => "req_1"
      case Count => "count"
      case Sum => "sum"
    }
  }

  /** Within each measurement the keys have distinct names, so a field map
      over keys renders to a string-keyed map with the same entries. */
  lemma SystemNamesDistinct()
    ensures forall j, k :: j in SystemKeys && k in SystemKeys && j != k ==> j.Name() != k.Name()
  {
  }

  lemma ServerNamesDistinct()
    ensures forall j, k :: j in ServerKeys && k in ServerKeys && j != k ==> j.Name() != k.Name()
  {
  }

  lemma ClientNamesDistinct()
    ensures forall j, k :: j in ClientKeys && k in ClientKeys && j != k ==> j.Name() != k.Name()
  {
  }

  type Fields = map<FieldKey, FieldValue>

  /** The three field maps of one endpoint, one per measurement. */
  datatype NormalizedFields = NormalizedFields(system: Fields, server: Fields, client: Fields)

  const SystemKeys: set<FieldKey> :=
    {MajorPageFaults, MinorPageFaults, NumberOfThreads, ResidentSize, SystemTime, UserTime, VirtualSize}

  const ServerKeys: set<FieldKey> := {PhysicalMemory, Uptime}

  /** Histogram field keys, in bucket order: bucket k is reported under BucketKeys[k]. */
  const BucketKeys: seq<FieldKey> := [Req0_01, Req0_05, Req0_1, Req0_2, Req0_5, Req1]

  /** Number of histogram buckets the plugin reads. */
  const BucketCount: nat := 6

  const ClientKeys: set<FieldKey> := {Req0_01, Req0_05, Req0_1, Req0_2, Req0_5, Req1, Count, Sum}

  /** The system fields: every struct field copied under its JSON name. */
  function SystemFields(s: ArangoSystem): (m: Fields)
    ensures m.Keys == SystemKeys
  {
    map[MajorPageFaults := U32(s.majorPageFaults),
        MinorPageFaults := U32(s.minorPageFaults),
        NumberOfThreads := U32(s.numberOfThreads),
        ResidentSize := F32(s.residentSize),
        SystemTime := F32(s.systemTime),
        UserTime := F32(s.userTime),
        VirtualSize := U64(s.virtualSize)]
  }

  /** The server fields. */
  function ServerFields(s: ArangoServer): (m: Fields)
    ensures m.Keys == ServerKeys
  {
    map[PhysicalMemory := U64(s.physicalMemory), Uptime := F32(s.uptime)]
  }

  /** The client fields: the first six histogram buckets by position, the
      request count and the sum. Only defined when the histogram has at least
      six buckets; Normalize handles the short case. */
  function ClientFields(rt: ArangoRequestTime): (m: Fields)
    requires |rt.counts| >= BucketCount
    ensures m.Keys == ClientKeys
    ensures forall k :: 0 <= k < BucketCount ==> m[BucketKeys[k]] == U32(rt.counts[k])
    ensures m[Count] == U32(rt.count) && m[Sum] == F32(rt.sum)
  {
    map[Req0_01 := U32(rt.counts[0]),
        Req0_05 := U32(rt.counts[1]),
        Req0_1 := U32(rt.counts[2]),
        Req0_2 := U32(rt.counts[3]),
        Req0_5 := U32(rt.counts[4]),
        Req1 := U32(rt.counts[5]),
        Count := U32(rt.count),
        Sum := F32(rt.sum)]
  }

  /** The whole normalisation step. Go evaluates the system and server maps
      first and then indexes Counts[0], ..., Counts[5]; with fewer than six
      buckets the first index that is out of range is len(Counts), and the
      runtime panics there. */
  function Normalize(s: ArangoStats): (r: Result<NormalizedFields, Panic>)
    ensures r.Failure? <==> |s.client.requestTime.counts| < BucketCount
    ensures r.Failure? ==>
      r.error == IndexOutOfRange(|s.client.requestTime.counts|, |s.client.requestTime.counts|)
    ensures r.Success? ==>
      r.value.system.Keys == SystemKeys && r.value.server.Keys == ServerKeys
      && r.value.client.Keys == ClientKeys
  {
    var n := |s.client.requestTime.counts|;
    if n < BucketCount then Failure(IndexOutOfRange(n, n))
    else Success(NormalizedFields(SystemFields(s.system), ServerFields(s.server),
                                  ClientFields(s.client.requestTime)))
  }

  // ---------------------------------------------------------------------------
  // The inverse reading: recovering the payload from the three maps.

  predicate HasU32(m: Fields, k: FieldKey) { k in m && m[k].U32? }
  predicate HasU64(m: Fields, k: FieldKey) { k in m && m[k].U64? }
  predicate HasF32(m: Fields, k: FieldKey) { k in m && m[k].F32? }

  /** The maps carry every field Normalize writes, with the dynamic type it writes. */
  predicate Decodable(f: NormalizedFields) {
    && HasU32(f.system, MajorPageFaults) && HasU32(f.system, MinorPageFaults)
    && HasU32(f.system, NumberOfThreads) && HasF32(f.system, ResidentSize)
    && HasF32(f.system, SystemTime) && HasF32(f.system, UserTime)
    && HasU64(f.system, VirtualSize)
    && HasU64(f.server, PhysicalMemory) && HasF32(f.server, Uptime)
    && HasU32(f.client, Req0_01) && HasU32(f.client, Req0_05) && HasU32(f.client, Req0_1)
    && HasU32(f.client, Req0_2) && HasU32(f.client, Req0_5) && HasU32(f.client, Req1)
    && HasU32(f.client, Count) && HasF32(f.client, Sum)
  }

  /** The maps carry exactly the keys Normalize writes. */
  predicate ExactKeys(f: NormalizedFields) {
    f.system.Keys == SystemKeys && f.server.Keys == ServerKeys && f.client.Keys == ClientKeys
  }

  /** Reads a payload back out of the three field maps; the histogram comes back
      with exactly the six reported buckets. */
  function Denormalize(f: NormalizedFields): (r: Option<ArangoStats>)
    ensures r.Some? <==> Decodable(f)
    ensures r.Some? ==> |r.value.client.requestTime.counts| == BucketCount
  {
    if !Decodable(f) then None
    else
      var c := f.client;
      var buckets := [c[Req0_01].u32, c[Req0_05].u32, c[Req0_1].u32, c[Req0_2].u32, c[Req0_5].u32, c[Req1].u32];
      Some(ArangoStats(
        ArangoClient(ArangoRequestTime(c[Count].u32, buckets, c[Sum].f32)),
        ArangoServer(f.server[PhysicalMemory].u64, f.server[Uptime].f32),
        ArangoSystem(f.system[MajorPageFaults].u32, f.system[MinorPageFaults].u32,
                     f.system[NumberOfThreads].u32, f.system[ResidentSize].f32,
                     f.system[SystemTime].f32, f.system[UserTime].f32,
                     f.system[VirtualSize].u64)))
  }

  /** The payload with its histogram cut to the buckets the plugin reports. */
  function Reported(s: ArangoStats): ArangoStats
    requires |s.client.requestTime.counts| >= BucketCount
  {
    s.(client := s.client.(requestTime :=
         s.client.requestTime.(counts := s.client.requestTime.counts[..BucketCount])))
  }

  /** Normalisation loses nothing but the buckets past the sixth: reading the
      maps back gives the payload with its histogram cut to six buckets. */
  lemma NormalizeThenDenormalize(s: ArangoStats)
    requires |s.client.requestTime.counts| >= BucketCount
    ensures Normalize(s).Success?
    ensures Denormalize(Normalize(s).value) == Some(Reported(s))
  {
    var f := Normalize(s).value;
    var counts := s.client.requestTime.counts;
    var r := Denormalize(f).value;
    assert r.system == s.system;
    assert r.server == s.server;
    assert r.client.requestTime.counts == counts[..BucketCount] by {
      forall k | 0 <= k < BucketCount
        ensures r.client.requestTime.counts[k] == counts[k]
      {
        assert f.client[BucketKeys[k]] == U32(counts[k]);
      }
    }
  }

  /** Two payloads normalise to the same maps exactly when they agree on every
      field the plugin reports. */
  lemma NormalizeInjective(s: ArangoStats, t: ArangoStats)
    requires |s.client.requestTime.counts| >= BucketCount
    requires |t.client.requestTime.counts| >= BucketCount
    ensures Normalize(s) == Normalize(t) <==> Reported(s) == Reported(t)
  {
    if Normalize(s) == Normalize(t) {
      NormalizeThenDenormalize(s);
      NormalizeThenDenormalize(t);
    }
    if Reported(s) == Reported(t) {
      var cs := s.client.requestTime.counts;
      var ct := t.client.requestTime.counts;
      assert forall k :: 0 <= k < BucketCount ==> cs[k] == cs[..BucketCount][k] == ct[..BucketCount][k] == ct[k];
      assert ClientFields(s.client.requestTime) == ClientFields(t.client.requestTime);
    }
  }

  /** Every well-formed triple of maps is what Normalize produces from the
      payload read back out of it. */
  lemma DenormalizeThenNormalize(f: NormalizedFields)
    requires Decodable(f) && ExactKeys(f)
    ensures Normalize(Denormalize(f).value) == Success(f)
  {
    var s := Denormalize(f).value;
    var g := Normalize(s).value;
    assert g.system == f.system;
    assert g.server == f.server;
    assert g.client == f.client;
  }
}
