/** The encoding of a cluster into a string map, and its decoding. */
module InstanceInfo {
  import opened Types

  function Digit(d: nat): char
    requires d < 10
  {
    "0123456789"[d]
  }

  function DigitValue(c: char): nat {
    if '0' <= c <= '9' then c as nat - '0' as nat else 0
  }

  /** strconv.Itoa on the non-negative numbers the encoder meets. */
  function Itoa(n: nat): (s: string)
    ensures s != []
  {
    if n < 10 then [Digit(n)] else Itoa(n / 10) + [Digit(n % 10)]
  }

  function Atoi(s: string): nat {
    if s == [] then 0 else 10 * Atoi(s[..|s| - 1]) + DigitValue(s[|s| - 1])
  }

  lemma {:induction false} ItoaRoundTrip(n: nat)
    ensures Atoi(Itoa(n)) == n
  {
    if n < 10 {
      assert Itoa(n)[..0] == [];
    } else {
      ItoaRoundTrip(n / 10);
      assert Itoa(n)[..|Itoa(n)| - 1] == Itoa(n / 10);
    }
  }

  predicate IsDigit(c: char) {
    '0' <= c <= '9'
  }

  /** Decimal digits only, and no leading zero: with the round trip, the one decimal text of a number. */
  lemma {:induction false} ItoaIsCanonical(n: nat)
    ensures forall j :: 0 <= j < |Itoa(n)| ==> IsDigit(Itoa(n)[j])
    ensures Itoa(n)[0] == '0' <==> n == 0
    ensures n == 0 ==> |Itoa(n)| == 1
  {
    if n < 10 {
    } else {
      ItoaIsCanonical(n / 10);
    }
  }

  function RegionKey(i: nat, field: string): string {
    "regions." + Itoa(i + 1) + field
  }

  function NameKey(i: nat): string {
    RegionKey(i, ".name")
  }

  function SqlDnsKey(i: nat): string {
    RegionKey(i, ".sqlDns")
  }

  /** The nine entries that do not depend on the regions' contents. */
  function FixedInfo(c: Cluster): map<string, string> {
    map[
      "numOfRegions" := Itoa(|c.regions|),
      "Version" := c.version,
      "operationStatus" := c.operationStatus,
      "creatorId" := c.creatorId,
      "cloudProvider" := c.cloudProvider,
      "plan" := c.plan,
      "state" := c.state,
      "createAt" := c.createdAt,
      "updateAt" := c.updatedAt]
  }

  /** The info of a cluster, with the first n regions written. */
  function InfoUpTo(c: Cluster, n: nat): map<string, string>
    requires n <= |c.regions|
  {
    if n == 0 then FixedInfo(c)
    else InfoUpTo(c, n - 1)[NameKey(n - 1) := c.regions[n - 1].name][SqlDnsKey(n - 1) := c.regions[n - 1].sqlDns]
  }

  function Info(c: Cluster): map<string, string> {
    InfoUpTo(c, |c.regions|)
  }

  lemma MiddleInjective(p: string, a: string, b: string, q: string)
    requires p + a + q == p + b + q
    ensures a == b
  {
    assert |a| == |b|;
    assert (p + a + q)[|p|..|p| + |a|] == a;
    assert (p + b + q)[|p|..|p| + |b|] == b;
  }

  /** Within one field, different regions get different keys. */
  lemma RegionKeyInjective(i: nat, j: nat, field: string)
    ensures RegionKey(i, field) == RegionKey(j, field) ==> i == j
  {
    hide Itoa, Atoi;
    if RegionKey(i, field) == RegionKey(j, field) {
      MiddleInjective("regions.", Itoa(i + 1), Itoa(j + 1), field);
      ItoaRoundTrip(i + 1);
      ItoaRoundTrip(j + 1);
    }
  }

  lemma NameIsNotSqlDns(i: nat, j: nat)
    ensures NameKey(i) != SqlDnsKey(j)
  {
    assert NameKey(i)[|NameKey(i)| - 1] == 'e';
    assert SqlDnsKey(j)[|SqlDnsKey(j)| - 1] == 's';
  }

  /** Region keys begin with an r, and no fixed key does. */
  lemma RegionKeysAreNotFixed(c: Cluster, i: nat)
    ensures NameKey(i) !in FixedInfo(c) && SqlDnsKey(i) !in FixedInfo(c)
  {
    assert NameKey(i)[0] == 'r' && SqlDnsKey(i)[0] == 'r';
  }

  lemma {:induction false} FixedEntries(c: Cluster, n: nat, key: string)
    requires n <= |c.regions| && key in FixedInfo(c)
    ensures key in InfoUpTo(c, n) && InfoUpTo(c, n)[key] == FixedInfo(c)[key]
  {
    if n == 0 {
    } else {
      FixedEntries(c, n - 1, key);
      RegionKeysAreNotFixed(c, n - 1);
    }
  }

  lemma {:induction false} RegionEntries(c: Cluster, n: nat, i: nat)
    requires i < n <= |c.regions|
    ensures NameKey(i) in InfoUpTo(c, n) && InfoUpTo(c, n)[NameKey(i)] == c.regions[i].name
    ensures SqlDnsKey(i) in InfoUpTo(c, n) && InfoUpTo(c, n)[SqlDnsKey(i)] == c.regions[i].sqlDns
  {
    hide Itoa, FixedInfo;
    NameIsNotSqlDns(i, n - 1);
    NameIsNotSqlDns(n - 1, i);
    if i == n - 1 {
    } else {
      RegionEntries(c, n - 1, i);
      RegionKeyInjective(i, n - 1, ".name");
      RegionKeyInjective(i, n - 1, ".sqlDns");
    }
  }

  lemma {:induction false} NoLaterEntries(c: Cluster, n: nat, i: nat)
    requires n <= |c.regions| && n <= i
    ensures NameKey(i) !in InfoUpTo(c, n) && SqlDnsKey(i) !in InfoUpTo(c, n)
  {
    if n == 0 {
      RegionKeysAreNotFixed(c, i);
    } else {
      NoLaterEntries(c, n - 1, i);
      NameIsNotSqlDns(i, n - 1);
      NameIsNotSqlDns(n - 1, i);
      RegionKeyInjective(i, n - 1, ".name");
      RegionKeyInjective(i, n - 1, ".sqlDns");
    }
  }

  lemma FixedSize(c: Cluster)
    ensures |FixedInfo(c)| == 9
  {
    hide Itoa;
  }

  lemma {:induction false} InfoSize(c: Cluster, n: nat)
    requires n <= |c.regions|
    ensures |InfoUpTo(c, n)| == 9 + 2 * n
  {
    if n == 0 {
      FixedSize(c);
    } else {
      InfoSize(c, n - 1);
      NoLaterEntries(c, n - 1, n - 1);
      NameIsNotSqlDns(n - 1, n - 1);
    }
  }

  /** Reads the regions back from an info map. */
  function DecodeRegions(info: map<string, string>): Option<seq<Region>> {
    if "numOfRegions" !in info then None
    else
      var n := Atoi(info["numOfRegions"]);
      if forall i :: 0 <= i < n ==> NameKey(i) in info && SqlDnsKey(i) in info then
        Some(seq(n, i requires 0 <= i < n && NameKey(i) in info && SqlDnsKey(i) in info =>
          Region(info[NameKey(i)], info[SqlDnsKey(i)])))
      else None
  }

  /** Encoding loses nothing about the regions, and no two entries share a key. */
  lemma InfoRoundTrip(c: Cluster)
    ensures DecodeRegions(Info(c)) == Some(c.regions)
    ensures |Info(c)| == 9 + 2 * |c.regions|
  {
    var n := |c.regions|;
    InfoSize(c, n);
    ItoaRoundTrip(n);
    assert Info(c)["numOfRegions"] == Itoa(n) by { FixedEntries(c, n, "numOfRegions"); }
    forall i | 0 <= i < n
      ensures NameKey(i) in Info(c) && SqlDnsKey(i) in Info(c)
      ensures Region(Info(c)[NameKey(i)], Info(c)[SqlDnsKey(i)]) == c.regions[i]
    {
      RegionEntries(c, n, i);
    }
    assert DecodeRegions(Info(c)).value == c.regions;
  }

  lemma FixedInjective(c: Cluster, d: Cluster)
    requires FixedInfo(c) == FixedInfo(d)
    ensures c.(id := d.id, name := d.name, regions := d.regions) == d
  {
    assert c.version == FixedInfo(c)["Version"] == FixedInfo(d)["Version"] == d.version;
    assert c.plan == FixedInfo(c)["plan"] == FixedInfo(d)["plan"] == d.plan;
    assert c.cloudProvider == FixedInfo(c)["cloudProvider"] == FixedInfo(d)["cloudProvider"] == d.cloudProvider;
    assert c.state == FixedInfo(c)["state"] == FixedInfo(d)["state"] == d.state;
    assert c.creatorId == FixedInfo(c)["creatorId"] == FixedInfo(d)["creatorId"] == d.creatorId;
    assert c.operationStatus == FixedInfo(c)["operationStatus"] == FixedInfo(d)["operationStatus"] == d.operationStatus;
    assert c.createdAt == FixedInfo(c)["createAt"] == FixedInfo(d)["createAt"] == d.createdAt;
    assert c.updatedAt == FixedInfo(c)["updateAt"] == FixedInfo(d)["updateAt"] == d.updatedAt;
  }

  /** Two clusters with equal info agree on everything that was written. */
  lemma InfoInjective(c: Cluster, d: Cluster)
    requires Info(c) == Info(d)
    ensures c.(id := d.id, name := d.name) == d
  {
    InfoRoundTrip(c);
    InfoRoundTrip(d);
    forall key | key in FixedInfo(c) && key in FixedInfo(d)
      ensures FixedInfo(c)[key] == FixedInfo(d)[key]
    {
      FixedEntries(c, |c.regions|, key);
      FixedEntries(d, |d.regions|, key);
    }
    assert FixedInfo(c) == FixedInfo(d);
    FixedInjective(c, d);
  }

  /** Each of the nine fixed keys has the field it is named after. */
  predicate SaysFields(info: map<string, string>, c: Cluster) {
    && "numOfRegions" in info && info["numOfRegions"] == Itoa(|c.regions|)
    && "Version" in info && info["Version"] == c.version
    && "operationStatus" in info && info["operationStatus"] == c.operationStatus
    && "creatorId" in info && info["creatorId"] == c.creatorId
    && "cloudProvider" in info && info["cloudProvider"] == c.cloudProvider
    && "plan" in info && info["plan"] == c.plan
    && "state" in info && info["state"] == c.state
    && "createAt" in info && info["createAt"] == c.createdAt
    && "updateAt" in info && info["updateAt"] == c.updatedAt
  }

  /** The regions are numbered from one, and each number has its region's name and address. */
  predicate SaysRegions(info: map<string, string>, c: Cluster) {
    forall i :: 0 <= i < |c.regions| ==>
      && "regions." + Itoa(i + 1) + ".name" in info
      && info["regions." + Itoa(i + 1) + ".name"] == c.regions[i].name
      && "regions." + Itoa(i + 1) + ".sqlDns" in info
      && info["regions." + Itoa(i + 1) + ".sqlDns"] == c.regions[i].sqlDns
  }

  /** What the info of a cluster says, key by key; with the size, it says nothing else. */
  lemma InfoSays(c: Cluster)
    ensures SaysFields(Info(c), c) && SaysRegions(Info(c), c)
  {
    forall key | key in FixedInfo(c)
      ensures key in Info(c) && Info(c)[key] == FixedInfo(c)[key]
    {
      FixedEntries(c, |c.regions|, key);
    }
    assert SaysFields(FixedInfo(c), c);
    forall i | 0 <= i < |c.regions|
      ensures NameKey(i) in Info(c) && Info(c)[NameKey(i)] == c.regions[i].name
      ensures SqlDnsKey(i) in Info(c) && Info(c)[SqlDnsKey(i)] == c.regions[i].sqlDns
    {
      RegionEntries(c, |c.regions|, i);
    }
  }

  method PopulateInstanceInfo(c: Cluster) returns (data: map<string, string>)
    ensures data == Info(c) && SaysFields(data, c) && SaysRegions(data, c)
  {
    data := map[
      "numOfRegions" := Itoa(|c.regions|),
      "Version" := c.version,
      "operationStatus" := c.operationStatus,
      "creatorId" := c.creatorId,
      "cloudProvider" := c.cloudProvider,
      "plan" := c.plan,
      "state" := c.state,
      "createAt" := c.createdAt,
      "updateAt" := c.updatedAt];
    for i := 0 to |c.regions|
      invariant data == InfoUpTo(c, i)
    {
      var key := "regions." + Itoa(i + 1) + ".name";
      data := data[key := c.regions[i].name];
      key := "regions." + Itoa(i + 1) + ".sqlDns";
      data := data[key := c.regions[i].sqlDns];
    }
    InfoSays(c);
  }
}
