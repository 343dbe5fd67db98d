/** Volume identifiers: one printer and three readers. */
module VolumeId {
  import opened Strings

  /** What GetVolIdMembers fills in; the fields it never sets are left out. */
  datatype Members = Members(clusterId: string, fsUUID: string, fsetId: string, fsetName: string,
                             symLnkPath: string, isFilesetBased: bool)

  datatype Parsed = Valid(members: Members) | Invalid

  /** generateVolID; slink is the symlink directory joined with the volume name. */
  function Generate(clusterId: string, uuid: string, volName: string, slink: string, isFilesetBased: bool): string {
    if isFilesetBased
    then clusterId + ";" + uuid + ";filesetName=" + volName + ";path=" + slink
    else clusterId + ";" + uuid + ";path=" + slink
  }

  function GetVolIdMembers(vId: string): Parsed {
    var parts := Split(vId, ';');
    if |parts| == 3 then
      var slnk := Split(parts[2], '=');
      if |slnk| < 2 then Invalid
      else Valid(Members(parts[0], parts[1], "", "", slnk[1], false))
    else if |parts| == 4 then
      var fset := Split(parts[2], '=');
      var slnk := Split(parts[3], '=');
      if |fset| < 2 || |slnk| < 2 then Invalid
      else if fset[0] == "filesetName"
      then Valid(Members(parts[0], parts[1], "", fset[1], slnk[1], true))
      else Valid(Members(parts[0], parts[1], fset[1], "", slnk[1], true))
    else Invalid
  }

  datatype Found<T> = Found(value: T) | Refused

  /** The symlink path NodePublishVolume hands to ln. */
  method NodePublishPath(volumeID: string) returns (r: Found<string>)
    ensures r == NodePath(volumeID)
  {
    var splitVId := Split(volumeID, ';');
    if |splitVId| < 3 {
      return Refused;
    }
    var index := 2;
    if |splitVId| == 4 {
      index := 3;
    }
    var targetSlnkPath := Split(splitVId[index], '=');
    if |targetSlnkPath| < 2 {
      return Refused;
    }
    return Found(targetSlnkPath[1]);
  }

  function NodePath(volumeID: string): Found<string> {
    var parts := Split(volumeID, ';');
    if |parts| < 3 then Refused
    else
      var slnk := Split(parts[if |parts| == 4 then 3 else 2], '=');
      if |slnk| < 2 then Refused else Found(slnk[1])
  }

  /** The filesystem UUID ControllerPublishVolume looks up. */
  function PublishUUID(volumeID: string): Found<string> {
    var parts := Split(volumeID, ';');
    if |parts| < 3 then Refused else Found(parts[1])
  }

  /** The members a freshly created volume is meant to have. */
  function Intended(clusterId: string, uuid: string, volName: string, slink: string, isFilesetBased: bool): Members {
    Members(clusterId, uuid, "", if isFilesetBased then volName else "", slink, isFilesetBased)
  }

  /** No field hides a separator that a reader would cut at. */
  predicate Separable(clusterId: string, uuid: string, volName: string, slink: string, isFilesetBased: bool) {
    && ';' !in clusterId && ';' !in uuid && ';' !in slink && '=' !in slink
    && (isFilesetBased ==> ';' !in volName && '=' !in volName)
  }

  lemma Shift(a: string, b: string, c: string)
    ensures a + ";" + b + ";" + c == a + ";" + (b + ";" + c)
  {
  }

  lemma SplitThree(a: string, b: string, c: string)
    requires ';' !in a && ';' !in b && ';' !in c
    ensures Split(a + ";" + b + ";" + c, ';') == [a, b, c]
  {
    SplitFree(c, ';');
    SplitCons(b, c, ';');
    SplitCons(a, b + ";" + c, ';');
    Shift(a, b, c);
  }

  lemma SplitFour(a: string, b: string, c: string, d: string)
    requires ';' !in a && ';' !in b && ';' !in c && ';' !in d
    ensures Split(a + ";" + b + ";" + c + ";" + d, ';') == [a, b, c, d]
  {
    SplitThree(b, c, d);
    SplitCons(a, b + ";" + c + ";" + d, ';');
    Shift(a, b, c);
    Shift(a, b + ";" + c, d);
  }

  /** The printed identifier as fields joined by semicolons. */
  lemma GenerateShape(clusterId: string, uuid: string, volName: string, slink: string)
    ensures Generate(clusterId, uuid, volName, slink, true) ==
            clusterId + ";" + uuid + ";" + ("filesetName=" + volName) + ";" + ("path=" + slink)
    ensures Generate(clusterId, uuid, volName, slink, false) == clusterId + ";" + uuid + ";" + ("path=" + slink)
  {
    var head := clusterId + ";" + uuid;
    assert ";path=" == ";" + "path=";
    assert ";filesetName=" == ";" + "filesetName=";
    Nest(head, "path=", slink);
    Nest(head, "filesetName=", volName);
    Nest(head + ";" + ("filesetName=" + volName), "path=", slink);
  }

  lemma Nest(head: string, key: string, value: string)
    ensures head + (";" + key) + value == head + ";" + (key + value)
  {
  }

  lemma SplitsOf(clusterId: string, uuid: string, volName: string, slink: string, isFilesetBased: bool)
    requires ';' !in clusterId && ';' !in uuid && ';' !in slink && (isFilesetBased ==> ';' !in volName)
    ensures Split(Generate(clusterId, uuid, volName, slink, isFilesetBased), ';') ==
      if isFilesetBased then [clusterId, uuid, "filesetName=" + volName, "path=" + slink]
      else [clusterId, uuid, "path=" + slink]
  {
    GenerateShape(clusterId, uuid, volName, slink);
    if isFilesetBased {
      SplitFour(clusterId, uuid, "filesetName=" + volName, "path=" + slink);
    } else {
      SplitThree(clusterId, uuid, "path=" + slink);
    }
  }

  /** A "key=value" field keeps its value exactly when the value has no further equals sign. */
  lemma FieldValue(key: string, value: string)
    requires '=' !in key
    ensures |Split(key + "=" + value, '=')| >= 2 && Split(key + "=" + value, '=')[0] == key
    ensures Split(key + "=" + value, '=')[1] == value <==> '=' !in value
  {
    SplitCons(key, value, '=');
    SplitMore(value, '=');
    if '=' !in value {
      SplitFree(value, '=');
    }
  }

  lemma TwoFields(slink: string)
    ensures "path=" + slink == "path" + "=" + slink
  {
  }

  lemma NameField(volName: string)
    ensures "filesetName=" + volName == "filesetName" + "=" + volName
  {
  }

  lemma JoinedCount(a: string, b: string)
    ensures |Split(a + ";" + b, ';')| == |Split(a, ';')| + |Split(b, ';')|
  {
    SplitCons("", b, ';');
    assert ";" + b == "" + [';'] + b;
    SplitLength(a, ";" + b, ';');
    assert a + ";" + b == a + (";" + b);
  }

  lemma KeyedCount(key: string, value: string)
    requires ';' !in key
    ensures |Split(key + value, ';')| == |Split(value, ';')|
  {
    SplitFree(key, ';');
    SplitLength(key, value, ';');
  }

  /** Semicolons inside the fields change the number of parts, so the reader sees another shape. */
  lemma PartCount(clusterId: string, uuid: string, volName: string, slink: string, isFilesetBased: bool)
    ensures |Split(Generate(clusterId, uuid, volName, slink, isFilesetBased), ';')| ==
      |Split(clusterId, ';')| + |Split(uuid, ';')| + |Split(slink, ';')| +
      (if isFilesetBased then |Split(volName, ';')| else 0)
  {
    var head := clusterId + ";" + uuid;
    GenerateShape(clusterId, uuid, volName, slink);
    JoinedCount(clusterId, uuid);
    KeyedCount("path=", slink);
    if isFilesetBased {
      KeyedCount("filesetName=", volName);
      JoinedCount(head, "filesetName=" + volName);
      JoinedCount(head + ";" + ("filesetName=" + volName), "path=" + slink);
    } else {
      JoinedCount(head, "path=" + slink);
    }
  }

  /** GetVolIdMembers recovers what was printed exactly on separable fields. */
  lemma ParseInvertsGenerate(clusterId: string, uuid: string, volName: string, slink: string, isFilesetBased: bool)
    ensures GetVolIdMembers(Generate(clusterId, uuid, volName, slink, isFilesetBased)) ==
            Valid(Intended(clusterId, uuid, volName, slink, isFilesetBased))
            <==> Separable(clusterId, uuid, volName, slink, isFilesetBased)
  {
    PartCount(clusterId, uuid, volName, slink, isFilesetBased);
    SplitMore(clusterId, ';');
    SplitMore(uuid, ';');
    SplitMore(slink, ';');
    SplitMore(volName, ';');
    if ';' !in clusterId && ';' !in uuid && ';' !in slink && (isFilesetBased ==> ';' !in volName) {
      SplitsOf(clusterId, uuid, volName, slink, isFilesetBased);
      TwoFields(slink);
      FieldValue("path", slink);
      if isFilesetBased {
        NameField(volName);
        FieldValue("filesetName", volName);
      }
    }
  }

  /** A link path comes back cut short at its first equals sign. */
  lemma SecondEqualsCuts(clusterId: string, uuid: string, volName: string, front: string, back: string)
    requires ';' !in clusterId && ';' !in uuid && ';' !in volName && ';' !in front && ';' !in back
    requires '=' !in volName && '=' !in front
    ensures GetVolIdMembers(Generate(clusterId, uuid, volName, front + "=" + back, true)) ==
            Valid(Members(clusterId, uuid, "", volName, front, true))
  {
    var slink := front + "=" + back;
    SplitsOf(clusterId, uuid, volName, slink, true);
    NameField(volName);
    FieldValue("filesetName", volName);
    TwoFields(slink);
    SplitCons("path", slink, '=');
    SplitCons(front, back, '=');
  }

  /** Hence two separable volumes with the same identifier agree in everything the identifier carries. */
  lemma GenerateInjective(c1: string, u1: string, n1: string, s1: string, b1: bool,
                          c2: string, u2: string, n2: string, s2: string, b2: bool)
    requires Separable(c1, u1, n1, s1, b1) && Separable(c2, u2, n2, s2, b2)
    requires Generate(c1, u1, n1, s1, b1) == Generate(c2, u2, n2, s2, b2)
    ensures c1 == c2 && u1 == u2 && s1 == s2 && b1 == b2 && (b1 ==> n1 == n2)
  {
    ParseInvertsGenerate(c1, u1, n1, s1, b1);
    ParseInvertsGenerate(c2, u2, n2, s2, b2);
  }

  /** The older form of a fileset volume's identifier, by fileset id, is read back as well. */
  lemma ParseOlderForm(clusterId: string, uuid: string, fsetId: string, slink: string)
    requires ';' !in clusterId && ';' !in uuid && ';' !in fsetId && '=' !in fsetId && ';' !in slink && '=' !in slink
    ensures GetVolIdMembers(clusterId + ";" + uuid + ";fileset=" + fsetId + ";path=" + slink) ==
            Valid(Members(clusterId, uuid, fsetId, "", slink, true))
  {
    var head := clusterId + ";" + uuid;
    assert ";path=" == ";" + "path=";
    assert ";fileset=" == ";" + "fileset=";
    Nest(head, "fileset=", fsetId);
    Nest(head + ";" + ("fileset=" + fsetId), "path=", slink);
    SplitFour(clusterId, uuid, "fileset=" + fsetId, "path=" + slink);
    TwoFields(slink);
    FieldValue("path", slink);
    assert "fileset=" + fsetId == "fileset" + "=" + fsetId;
    FieldValue("fileset", fsetId);
  }

  /**
   Every identifier GetVolIdMembers accepts, the two publish calls read the same way. They accept more: exactly
   those with five or more parts and a path field, and those with four parts and no equals sign in the third.
   */
  lemma ReadersAgree(vId: string)
    ensures GetVolIdMembers(vId).Valid? ==>
      && NodePath(vId) == Found(GetVolIdMembers(vId).members.symLnkPath)
      && PublishUUID(vId) == Found(GetVolIdMembers(vId).members.fsUUID)
    ensures NodePath(vId).Found? && GetVolIdMembers(vId).Invalid? <==>
      var parts := Split(vId, ';');
      || (|parts| >= 5 && '=' in parts[2])
      || (|parts| == 4 && '=' !in parts[2] && '=' in parts[3])
  {
    var parts := Split(vId, ';');
    if |parts| >= 3 {
      SplitMore(parts[2], '=');
      if |parts| >= 4 {
        SplitMore(parts[3], '=');
      }
    }
  }
}
