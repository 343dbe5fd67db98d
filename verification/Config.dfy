/** The validation of the cluster list, and the look-ups start-up then makes without checking. */
module Config {
  import opened Numbers

  /** All fields of the primary section; a section with every field empty counts as absent. */
  datatype Primary = Primary(primaryFSDep: string, primaryFs: string, primaryFset: string, primaryCid: string,
                             inodeLimitDep: string, inodeLimits: string, remoteCluster: string,
                             primaryFSMount: string, primaryFsetLink: string, symlinkAbsolutePath: string,
                             symlinkRelativePath: string)

  datatype Cluster = Cluster(id: string, primary: Primary, secureSslMode: bool, secrets: string, restApi: seq<string>,
                             hasCacert: bool)

  const NO_PRIMARY := Primary("", "", "", "", "", "", "", "", "", "", "")

  predicate IsPrimary(c: Cluster) {
    c.primary != NO_PRIMARY
  }

  function PrimaryFs(p: Primary): string {
    if p.primaryFs == "" then p.primaryFSDep else p.primaryFs
  }

  // ---------- strings.EqualFold and StringInSlice ----------

  /** strings.EqualFold, for the case folding of Unicode or any other. */
  predicate EqualFold(fold: char -> char, a: string, b: string) {
    |a| == |b| && forall i :: 0 <= i < |a| ==> fold(a[i]) == fold(b[i])
  }

  /** No other character folds together with a digit. */
  ghost predicate DigitsAlone(fold: char -> char) {
    forall c, e :: IsDigit(c) && fold(c) == fold(e) ==> c == e
  }

  method StringInSlice(fold: char -> char, a: string, list: seq<string>) returns (found: bool)
    ensures found <==> exists i :: 0 <= i < |list| && EqualFold(fold, list[i], a)
  {
    for i := 0 to |list|
      invariant forall j :: 0 <= j < i ==> !EqualFold(fold, list[j], a)
    {
      if EqualFold(fold, list[i], a) {
        return true;
      }
    }
    return false;
  }

  /** A decimal string folds together with nothing but itself. */
  lemma DigitsFoldAlone(fold: char -> char, digits: string, other: string)
    requires DigitsAlone(fold) && AllDigits(digits) && EqualFold(fold, digits, other)
    ensures digits == other
  {
    forall i | 0 <= i < |digits| ensures digits[i] == other[i] {
      assert IsDigit(digits[i]) && fold(digits[i]) == fold(other[i]);
    }
  }

  // ---------- ValidateScaleConfigParameters ----------

  /** The mandatory settings of one cluster. */
  predicate Complete(c: Cluster) {
    && c.id != "" && c.restApi != [] && c.restApi[0] != "" && c.secrets != ""
    && (IsPrimary(c) ==> PrimaryFs(c.primary) != "")
    && (c.secureSslMode ==> c.hasCacert)
  }

  /** The only primary is the one at this index. */
  predicate OnlyPrimary(clusters: seq<Cluster>, p: nat) {
    p < |clusters| && IsPrimary(clusters[p]) && forall i :: 0 <= i < |clusters| && i != p ==> !IsPrimary(clusters[i])
  }

  /** The remote cluster, if the primary names one, is the id of some other cluster, up to case. */
  predicate RemoteNamed(fold: char -> char, clusters: seq<Cluster>, p: nat)
    requires p < |clusters|
  {
    var remote := clusters[p].primary.remoteCluster;
    remote != "" ==>
      exists i :: 0 <= i < |clusters| && !IsPrimary(clusters[i]) && EqualFold(fold, clusters[i].id, remote)
  }

  ghost predicate Sound(fold: char -> char, clusters: seq<Cluster>) {
    && (forall i :: 0 <= i < |clusters| ==> Complete(clusters[i]))
    && exists p: nat :: OnlyPrimary(clusters, p) && RemoteNamed(fold, clusters, p)
  }

  ghost predicate AllComplete(clusters: seq<Cluster>) {
    forall i :: 0 <= i < |clusters| ==> Complete(clusters[i])
  }

  ghost predicate TwoPrimaries(clusters: seq<Cluster>) {
    exists j, k :: 0 <= j < k < |clusters| && IsPrimary(clusters[j]) && IsPrimary(clusters[k])
  }

  /** What cl holds of a cluster: nothing for a primary one. */
  function Listed(c: Cluster): string {
    if IsPrimary(c) then "" else c.id
  }

  ghost predicate SomePrimary(clusters: seq<Cluster>) {
    exists j :: 0 <= j < |clusters| && IsPrimary(clusters[j])
  }

  /** What one more cluster changes. */
  lemma OneMore(clusters: seq<Cluster>, i: nat)
    requires i < |clusters|
    ensures AllComplete(clusters[..i + 1]) <==> AllComplete(clusters[..i]) && Complete(clusters[i])
    ensures SomePrimary(clusters[..i + 1]) <==> SomePrimary(clusters[..i]) || IsPrimary(clusters[i])
    ensures TwoPrimaries(clusters[..i + 1]) <==>
      TwoPrimaries(clusters[..i]) || (IsPrimary(clusters[i]) && SomePrimary(clusters[..i]))
  {
    var less, more := clusters[..i], clusters[..i + 1];
    assert more[i] == clusters[i];
    assert forall j :: 0 <= j < i ==> more[j] == less[j];
    if IsPrimary(clusters[i]) && SomePrimary(less) {
      var j :| 0 <= j < |less| && IsPrimary(less[j]);
      assert IsPrimary(more[j]) && IsPrimary(more[i]);
    }
  }

  /** The checks of one pass of the loop that look at this cluster alone. */
  method MissingSettings(cluster: Cluster) returns (issueFound: bool)
    ensures issueFound <==> !Complete(cluster)
  {
    issueFound := false;
    if cluster.id == "" {
      issueFound := true;
    }
    if |cluster.restApi| == 0 {
      issueFound := true;
    }
    if |cluster.restApi| != 0 && cluster.restApi[0] == "" {
      issueFound := true;
    }
    if IsPrimary(cluster) && PrimaryFs(cluster.primary) == "" {
      issueFound := true;
    }
    if cluster.secrets == "" {
      issueFound := true;
    }
    if cluster.secureSslMode && !cluster.hasCacert {
      issueFound := true;
    }
  }

  lemma Verdict(fold: char -> char, clusters: seq<Cluster>, last: nat)
    requires last < |clusters| && IsPrimary(clusters[last])
    ensures Sound(fold, clusters) <==>
      AllComplete(clusters) && !TwoPrimaries(clusters) && RemoteNamed(fold, clusters, last)
  {
    if i :| 0 <= i < |clusters| && i != last && IsPrimary(clusters[i]) {
      var j, k := if i < last then i else last, if i < last then last else i;
      assert j < k && IsPrimary(clusters[j]) && IsPrimary(clusters[k]);
    } else {
      assert OnlyPrimary(clusters, last);
    }
  }

  /** What the flags say of the first i clusters; last is the latest primary one. */
  ghost predicate Scanned(clusters: seq<Cluster>, i: nat, cl: seq<string>, primaryFound: bool, remote: string,
      last: nat, issueFound: bool)
    requires i <= |clusters|
  {
    && |cl| == |clusters|
    && (forall j :: 0 <= j < i ==> cl[j] == Listed(clusters[j]))
    && (forall j :: i <= j < |clusters| ==> cl[j] == "")
    && (primaryFound <==> SomePrimary(clusters[..i]))
    && (if primaryFound then last < i && IsPrimary(clusters[last]) && remote == clusters[last].primary.remoteCluster
        else remote == "")
    && (issueFound <==> !AllComplete(clusters[..i]) || TwoPrimaries(clusters[..i]))
  }

  lemma ScannedMore(clusters: seq<Cluster>, i: nat, cl: seq<string>, primaryFound: bool, remote: string, last: nat,
      issueFound: bool)
    requires i < |clusters| && Scanned(clusters, i, cl, primaryFound, remote, last, issueFound)
    ensures var c := clusters[i]; var issue := issueFound || !Complete(c);
      if IsPrimary(c) then Scanned(clusters, i + 1, cl, true, c.primary.remoteCluster, i, issue || primaryFound)
      else Scanned(clusters, i + 1, cl[i := c.id], primaryFound, remote, last, issue)
  {
    OneMore(clusters, i);
  }

  /** The loop over flags accepts exactly the sound cluster lists. */
  method ValidateScaleConfigParameters(fold: char -> char, clusters: seq<Cluster>) returns (ok: bool)
    ensures ok <==> Sound(fold, clusters)
  {
    if |clusters| == 0 {
      return false;
    }
    var primaryClusterFound, rClusterForPrimaryFS, issueFound := false, "", false;
    var cl: seq<string> := seq(|clusters|, i => "");
    ghost var last: nat := 0;
    for i := 0 to |clusters|
      invariant Scanned(clusters, i, cl, primaryClusterFound, rClusterForPrimaryFS, last, issueFound)
    {
      var cluster := clusters[i];
      ScannedMore(clusters, i, cl, primaryClusterFound, rClusterForPrimaryFS, last, issueFound);
      var missing := MissingSettings(cluster);
      if missing {
        issueFound := true;
      }
      if IsPrimary(cluster) {
        if primaryClusterFound {
          issueFound := true;
        }
        primaryClusterFound := true;
        last := i;
        rClusterForPrimaryFS := cluster.primary.remoteCluster;
      } else {
        cl := cl[i := cluster.id];
      }
    }
    assert clusters[..|clusters|] == clusters;
    if !primaryClusterFound {
      return false;
    }
    Verdict(fold, clusters, last);
    var remoteMissing := RemoteMissing(fold, clusters, cl, last, rClusterForPrimaryFS);
    return !issueFound && !remoteMissing;
  }

  /** The last check: a remote cluster that is named must be listed. */
  method RemoteMissing(fold: char -> char, clusters: seq<Cluster>, cl: seq<string>, ghost primary: nat,
      remote: string) returns (missing: bool)
    requires primary < |clusters| && remote == clusters[primary].primary.remoteCluster
    requires |cl| == |clusters| && forall j :: 0 <= j < |cl| ==> cl[j] == Listed(clusters[j])
    ensures missing <==> !RemoteNamed(fold, clusters, primary)
  {
    missing := false;
    if remote != "" {
      var found := StringInSlice(fold, remote, cl);
      ListedNames(fold, clusters, cl, remote);
      missing := !found;
    }
  }

  /** No primary section, or one with nothing in it. */
  predicate Plain(c: Cluster) {
    c.primary == Primary("", "", "", "", "", "", "", "", "", "", "")
  }

  /**
   A list is refused for each mandatory setting that one of its clusters lacks: an id, a section for the REST API with
   a host, secrets, a certificate in secure mode, and for a primary cluster a filesystem under either spelling.
   */
  lemma MandatorySettings(fold: char -> char, clusters: seq<Cluster>, i: nat)
    requires i < |clusters|
    requires var c := clusters[i];
      || c.id == "" || c.restApi == [] || c.restApi[0] == "" || c.secrets == ""
      || (c.secureSslMode && !c.hasCacert)
      || (!Plain(c) && c.primary.primaryFs == "" && c.primary.primaryFSDep == "")
    ensures !Sound(fold, clusters)
  {
  }

  /** So is a list without a primary cluster, with two, or whose primary names a remote cluster that is not there. */
  lemma OnePrimary(fold: char -> char, clusters: seq<Cluster>)
    ensures (forall i :: 0 <= i < |clusters| ==> Plain(clusters[i])) ==> !Sound(fold, clusters)
    ensures forall i, j :: 0 <= i < j < |clusters| && !Plain(clusters[i]) && !Plain(clusters[j]) ==>
      !Sound(fold, clusters)
    ensures forall p :: 0 <= p < |clusters| && clusters[p].primary.remoteCluster != "" && Sound(fold, clusters) ==>
      exists i :: 0 <= i < |clusters| && Plain(clusters[i]) &&
                  EqualFold(fold, clusters[i].id, clusters[p].primary.remoteCluster)
  {
    if p: nat :| OnlyPrimary(clusters, p) && RemoteNamed(fold, clusters, p) {
      assert !Plain(clusters[p]);
      assert forall i :: 0 <= i < |clusters| && i != p ==> Plain(clusters[i]);
    }
  }

  /** Nothing else is asked for. */
  lemma EnoughSettings(fold: char -> char, clusters: seq<Cluster>, p: nat)
    requires forall i :: 0 <= i < |clusters| ==>
      var c := clusters[i];
      c.id != "" && c.restApi != [] && c.restApi[0] != "" && c.secrets != "" && (c.secureSslMode ==> c.hasCacert)
    requires p < |clusters| && (clusters[p].primary.primaryFs != "" || clusters[p].primary.primaryFSDep != "")
    requires forall i :: 0 <= i < |clusters| && i != p ==> Plain(clusters[i])
    requires var remote := clusters[p].primary.remoteCluster;
      remote != "" ==> exists i :: 0 <= i < |clusters| && i != p && EqualFold(fold, clusters[i].id, remote)
    ensures Sound(fold, clusters)
  {
    assert OnlyPrimary(clusters, p);
    assert RemoteNamed(fold, clusters, p);
  }

  /** The entries left empty for primary clusters match no remote cluster. */
  lemma ListedNames(fold: char -> char, clusters: seq<Cluster>, cl: seq<string>, remote: string)
    requires |cl| == |clusters| && remote != "" && forall j :: 0 <= j < |cl| ==> cl[j] == Listed(clusters[j])
    ensures (exists i :: 0 <= i < |cl| && EqualFold(fold, cl[i], remote)) <==>
            (exists i :: 0 <= i < |clusters| && !IsPrimary(clusters[i]) && EqualFold(fold, clusters[i].id, remote))
  {
    if i :| 0 <= i < |cl| && EqualFold(fold, cl[i], remote) {
      assert !IsPrimary(clusters[i]) && EqualFold(fold, clusters[i].id, remote);
    }
    if i :| 0 <= i < |clusters| && !IsPrimary(clusters[i]) && EqualFold(fold, clusters[i].id, remote) {
      assert EqualFold(fold, cl[i], remote);
    }
  }

  // ---------- start-up ----------

  /** What comes of asking a cluster's GUI for its own id: a number, no answer, or not even a connector to ask with. */
  datatype IdReply = ClusterNumber(n: nat) | NoAnswer | NoConnector

  /** What the primary cluster says of the primary filesystem. */
  datatype MountReply = NoDetails | NoMountAnswer | NotMounted | Mounted

  const PRIMARY_KEY := "primary"

  /** The connector table start-up builds: connectors are known by their position in the cluster list. */
  datatype ConnTable = ConnTable(connMap: map<string, nat>, primary: nat) | StartFailed

  /** The cluster reports its configured id. */
  predicate Reports(cluster: Cluster, reply: IdReply) {
    reply.ClusterNumber? && cluster.id == FormatUint(reply.n)
  }

  /** Of the first n clusters, each id, and the key of the primary, leads to a connector of that cluster. */
  ghost predicate Wired(clusters: seq<Cluster>, n: nat, connMap: map<string, nat>, primary: nat)
    requires n <= |clusters|
  {
    && (forall i :: 0 <= i < n ==> clusters[i].id in connMap)
    && (forall k :: k in connMap && k != PRIMARY_KEY ==> connMap[k] < n && clusters[connMap[k]].id == k)
    && (forall i :: 0 <= i < n && IsPrimary(clusters[i]) ==>
         PRIMARY_KEY in connMap && connMap[PRIMARY_KEY] == primary < n && IsPrimary(clusters[primary]))
  }

  /** One more cluster, with its id and, if it is the primary, with the primary's key. */
  lemma WiredMore(clusters: seq<Cluster>, n: nat, connMap: map<string, nat>, primary: nat, reply: IdReply)
    requires n < |clusters| && Wired(clusters, n, connMap, primary) && Reports(clusters[n], reply)
    ensures var more := connMap[clusters[n].id := n];
      if IsPrimary(clusters[n]) then Wired(clusters, n + 1, more[PRIMARY_KEY := n], n)
      else Wired(clusters, n + 1, more, primary)
  {
    NumbersAreNotKeys(reply.n);
  }

  /** The checks of one cluster's id. */
  method IdConfirmed(cluster: Cluster, reply: IdReply) returns (ok: bool)
    ensures ok <==> Reports(cluster, reply)
  {
    if reply.NoConnector? {
      return false;
    }
    if reply.NoAnswer? {
      return false;
    }
    var clusterId := FormatUint(reply.n);
    return cluster.id == clusterId;
  }

  /** The checks of the primary filesystem. */
  method FilesystemReady(fs: MountReply) returns (ok: bool)
    ensures ok <==> fs == Mounted
  {
    if fs.NoDetails? {
      return false;
    }
    if fs.NoMountAnswer? {
      return false;
    }
    return !fs.NotMounted?;
  }

  /** Among the first n clusters every id is confirmed, and any primary's filesystem is ready. */
  ghost predicate StartsWell(clusters: seq<Cluster>, replies: seq<IdReply>, fs: MountReply, n: nat)
    requires n <= |clusters| == |replies|
  {
    forall i :: 0 <= i < n ==> Reports(clusters[i], replies[i]) && (IsPrimary(clusters[i]) ==> fs == Mounted)
  }

  /**
   The loop of PluginInitialize: start-up goes on exactly if every cluster reports its configured id and the primary's
   filesystem is there and mounted, and then every look-up is wired.
   */
  method BuildConnectors(clusters: seq<Cluster>, replies: seq<IdReply>, fs: MountReply) returns (r: ConnTable)
    requires |replies| == |clusters|
    ensures r.ConnTable? <==> StartsWell(clusters, replies, fs, |clusters|)
    ensures fs != Mounted && (exists i :: 0 <= i < |clusters| && IsPrimary(clusters[i])) ==> r == StartFailed
    ensures (exists i :: 0 <= i < |clusters| && !replies[i].ClusterNumber?) ==> r == StartFailed
    ensures r.ConnTable? ==> Wired(clusters, |clusters|, r.connMap, r.primary)
  {
    var scaleConnMap: map<string, nat> := map[];
    var primaryInfo: nat := 0;
    for i := 0 to |clusters|
      invariant StartsWell(clusters, replies, fs, i)
      invariant Wired(clusters, i, scaleConnMap, primaryInfo)
    {
      var confirmed := IdConfirmed(clusters[i], replies[i]);
      if !confirmed {
        return StartFailed;
      }
      WiredMore(clusters, i, scaleConnMap, primaryInfo, replies[i]);
      scaleConnMap := scaleConnMap[clusters[i].id := i];
      if IsPrimary(clusters[i]) {
        scaleConnMap := scaleConnMap[PRIMARY_KEY := i];
        var ready := FilesystemReady(fs);
        if !ready {
          return StartFailed;
        }
        primaryInfo := i;
      }
    }
    return ConnTable(scaleConnMap, primaryInfo);
  }

  lemma NumbersAreNotKeys(n: nat)
    ensures FormatUint(n) != PRIMARY_KEY
  {
    DecimalOfFormat(n);
    assert !IsDigit(PRIMARY_KEY[0]);
  }

  /**
   Validation compares the remote cluster's id without case, start-up looks it up exactly; as ids have turned out to be
   decimal numbers, the look-up of a validated list never misses and finds a connector of exactly that id.
   */
  lemma LookupsNeverMiss(fold: char -> char, clusters: seq<Cluster>, replies: seq<IdReply>, fs: MountReply,
      r: ConnTable)
    requires DigitsAlone(fold) && Sound(fold, clusters) && |replies| == |clusters|
    requires StartsWell(clusters, replies, fs, |clusters|) && r.ConnTable?
    requires Wired(clusters, |clusters|, r.connMap, r.primary)
    ensures "primary" in r.connMap && r.connMap["primary"] == r.primary && OnlyPrimary(clusters, r.primary)
    ensures var remote := clusters[r.primary].primary.remoteCluster; remote != "" ==>
      remote in r.connMap && r.connMap[remote] < |clusters| && clusters[r.connMap[remote]].id == remote
  {
    var p: nat :| OnlyPrimary(clusters, p) && RemoteNamed(fold, clusters, p);
    assert r.primary == p;
    var remote := clusters[p].primary.remoteCluster;
    if remote != "" {
      var i :| 0 <= i < |clusters| && !IsPrimary(clusters[i]) && EqualFold(fold, clusters[i].id, remote);
      DecimalOfFormat(replies[i].n);
      DigitsFoldAlone(fold, clusters[i].id, remote);
      NumbersAreNotKeys(replies[i].n);
    }
  }
}
