/** From the options of a storage class to the request that creates a fileset. */
module Options {
  import opened Numbers

  datatype OptionError = NoBackendFs | TypeAndDir | ParentAndDir | InodesAndDir | InodesAndDependent
    | ParentAndIndependent
                       | BadType | BadInodes | FewInodes

  datatype Result<+T> = Ok(value: T) | Err(error: OptionError)

  /** The fields getScaleVolumeOptions fills in. */
  datatype VolumeOptions = VolumeOptions(volBackendFs: string, isFilesetBased: bool, volDirBasePath: string,
                                         uid: string, gid: string, clusterId: string, filesetType: string,
                                         inodeLimit: string, parentFileset: string)

  const DEPENDENT := "dependent"
  const INDEPENDENT := "independent"

  // ---------- strconv.Atoi ----------

  predicate Signed(s: string) {
    s != "" && (s[0] == '+' || s[0] == '-')
  }

  function Unsigned(s: string): string {
    if Signed(s) then s[1..] else s
  }

  predicate IsNumeral(s: string) {
    Unsigned(s) != "" && AllDigits(Unsigned(s))
  }

  function SignedValue(s: string): int
    requires IsNumeral(s)
  {
    var n: int := Decimal(Unsigned(s));
    if s[0] == '-' then -n else n
  }

  /** The string is a decimal number that fits in 64 bits. */
  predicate IsInt64(s: string) {
    IsNumeral(s) && -INT63 <= SignedValue(s) < INT63
  }

  // ---------- getScaleVolumeOptions ----------

  /** An option that is absent reads as the empty string. */
  function Get(opts: map<string, string>, key: string): string {
    if key in opts then opts[key] else ""
  }

  /** The type in force: without a type and without a directory it is the independent one. */
  function TypeOf(opts: map<string, string>): string {
    if Get(opts, "filesetType") == "" && Get(opts, "volDirBasePath") == "" then INDEPENDENT
      else Get(opts, "filesetType")
  }

  /** The storage classes that are accepted. */
  predicate Accepts(opts: map<string, string>) {
    && Get(opts, "volBackendFs") != ""
    && if Get(opts, "volDirBasePath") != ""
       then Get(opts, "filesetType") == "" && Get(opts, "parentFileset") == "" && Get(opts, "inodeLimit") == ""
       else if TypeOf(opts) == DEPENDENT then Get(opts, "inodeLimit") == ""
       else TypeOf(opts) == INDEPENDENT && Get(opts, "parentFileset") == "" &&
            (Get(opts, "inodeLimit") != "" ==>
              IsInt64(Get(opts, "inodeLimit")) && SignedValue(Get(opts, "inodeLimit")) >= 1024)
  }

  /** What an accepted storage class means. */
  function Meaning(opts: map<string, string>): VolumeOptions {
    VolumeOptions(Get(opts, "volBackendFs"), Get(opts, "volDirBasePath") == "", Get(opts, "volDirBasePath"),
                  if Get(opts, "gid") != "" && Get(opts, "uid") == "" then "0" else Get(opts, "uid"), Get(opts, "gid"),
                  Get(opts, "clusterId"), TypeOf(opts), Get(opts, "inodeLimit"), Get(opts, "parentFileset"))
  }

  /** The first thing wrong with a storage class that is not accepted. */
  function Objection(opts: map<string, string>): OptionError
    requires !Accepts(opts)
  {
    if Get(opts, "volBackendFs") == "" then NoBackendFs
    else if Get(opts, "volDirBasePath") != "" then
      if Get(opts, "filesetType") != "" then TypeAndDir
      else if Get(opts, "parentFileset") != "" then ParentAndDir else InodesAndDir
    else if TypeOf(opts) == DEPENDENT then InodesAndDependent
    else if TypeOf(opts) != INDEPENDENT then BadType
    else if Get(opts, "parentFileset") != "" then ParentAndIndependent
    else if !IsInt64(Get(opts, "inodeLimit")) then BadInodes else FewInodes
  }

  // ---------- the same on the options themselves ----------

  predicate Blank(opts: map<string, string>, key: string) {
    key !in opts || opts[key] == ""
  }

  predicate Typed(opts: map<string, string>, fsType: string) {
    "filesetType" in opts && opts["filesetType"] == fsType
  }

  /**
   The three kinds of storage classes: with a base directory, with the dependent type, and with the independent one,
   which is also what a class with neither type nor directory gets.
   */
  lemma ClassesExactly(opts: map<string, string>)
    ensures Blank(opts, "volBackendFs") ==> !Accepts(opts)
    ensures !Blank(opts, "volBackendFs") && !Blank(opts, "volDirBasePath") ==>
      (Accepts(opts) <==> Blank(opts, "filesetType") && Blank(opts, "parentFileset") && Blank(opts, "inodeLimit"))
    ensures !Blank(opts, "volBackendFs") && Blank(opts, "volDirBasePath") && Typed(opts, "dependent") ==>
      (Accepts(opts) <==> Blank(opts, "inodeLimit"))
    ensures !Blank(opts, "volBackendFs") && Blank(opts, "volDirBasePath") && !Typed(opts, "dependent") ==>
      (Accepts(opts) <==>
        && (Blank(opts, "filesetType") || Typed(opts, "independent")) && Blank(opts, "parentFileset")
        && (Blank(opts, "inodeLimit") || (IsInt64(opts["inodeLimit"]) && SignedValue(opts["inodeLimit"]) >= 1024)))
  {
  }

  /** What an accepted class resolves to, field by field. */
  lemma MeaningExactly(opts: map<string, string>)
    requires Accepts(opts)
    ensures var v := Meaning(opts);
      && "volBackendFs" in opts && v.volBackendFs == opts["volBackendFs"]
      && (v.isFilesetBased <==> Blank(opts, "volDirBasePath"))
      && v.volDirBasePath == (if Blank(opts, "volDirBasePath") then "" else opts["volDirBasePath"])
      && v.filesetType == (if !v.isFilesetBased then "" else if Typed(opts, "dependent") then "dependent"
                           else "independent")
      && v.clusterId == (if Blank(opts, "clusterId") then "" else opts["clusterId"])
      && v.inodeLimit == (if Blank(opts, "inodeLimit") then "" else opts["inodeLimit"])
      && v.parentFileset == (if Blank(opts, "parentFileset") then "" else opts["parentFileset"])
      && v.gid == (if Blank(opts, "gid") then "" else opts["gid"])
      && v.uid == (if !Blank(opts, "uid") then opts["uid"] else if Blank(opts, "gid") then "" else "0")
  {
  }

  /** Which of the errors a refused class gets. */
  lemma ObjectionsExactly(opts: map<string, string>)
    requires !Accepts(opts)
    ensures Objection(opts) == NoBackendFs <==> Blank(opts, "volBackendFs")
    ensures var e, dir := Objection(opts), !Blank(opts, "volDirBasePath"); e != NoBackendFs ==>
      && (e == TypeAndDir <==> dir && !Blank(opts, "filesetType"))
      && (e == ParentAndDir <==> dir && Blank(opts, "filesetType") && !Blank(opts, "parentFileset"))
      && (e == InodesAndDir <==> dir && Blank(opts, "filesetType") && Blank(opts, "parentFileset"))
      && (e == InodesAndDependent <==> !dir && Typed(opts, "dependent"))
      && (e == BadType <==> !dir && !Blank(opts, "filesetType") && !Typed(opts, "dependent") &&
                            !Typed(opts, "independent"))
      && (e == ParentAndIndependent <==> !dir && (Blank(opts, "filesetType") || Typed(opts, "independent")) &&
                                         !Blank(opts, "parentFileset"))
      && (e == FewInodes ==> IsInt64(opts["inodeLimit"]) && SignedValue(opts["inodeLimit"]) < 1024)
      && (e == BadInodes ==> !Blank(opts, "inodeLimit") && !IsInt64(opts["inodeLimit"]))
  {
  }

  /** The inode limits that can be read: digits, with or without a sign, that fit in 64 bits. */
  lemma NumeralsExactly(sign: string, digits: string)
    requires sign == "" || sign == "+" || sign == "-"
    requires digits != "" && forall i :: 0 <= i < |digits| ==> '0' <= digits[i] <= '9'
    ensures var n := if sign == "-" then 0 - Decimal(digits) else Decimal(digits);
      && (IsInt64(sign + digits) <==> -0x8000_0000_0000_0000 <= n <= 0x7fff_ffff_ffff_ffff)
      && (IsInt64(sign + digits) ==> SignedValue(sign + digits) == n)
  {
    var s := sign + digits;
    if sign == "" {
      assert s == digits && IsDigit(s[0]) && !Signed(s);
    } else {
      assert s[0] == sign[0] && s[1..] == digits;
    }
    assert Unsigned(s) == digits;
  }

  lemma NothingElseIsNumeral(s: string)
    requires s == "" || s == "+" || s == "-" || exists i :: 0 < i < |s| && !('0' <= s[i] <= '9')
    ensures !IsInt64(s)
  {
    if i :| 0 < i < |s| && !('0' <= s[i] <= '9') {
      assert Unsigned(s)[if Signed(s) then i - 1 else i] == s[i];
    }
  }

  /** The checks of combinations, in the order of the source. */
  method FirstObjection(dirSpecified: bool, typeSpecified: bool, fsType: string, parentSpecified: bool,
                        inodesSpecified: bool, inodeLim: string) returns (r: Result<bool>)
    requires dirSpecified || typeSpecified
    ensures r.Ok? <==>
      if dirSpecified then !typeSpecified && !parentSpecified && !inodesSpecified
      else if fsType == DEPENDENT then !inodesSpecified
      else (
        fsType == INDEPENDENT && !parentSpecified &&
        (inodesSpecified ==> IsInt64(inodeLim) && SignedValue(inodeLim) >= 1024))
    ensures r.Err? && dirSpecified ==>
      r.error == if typeSpecified then TypeAndDir else if parentSpecified then ParentAndDir else InodesAndDir
    ensures r.Err? && !dirSpecified && fsType == DEPENDENT ==> r.error == InodesAndDependent
    ensures r.Err? && !dirSpecified && fsType == INDEPENDENT ==>
      r.error == if parentSpecified then ParentAndIndependent else if !IsInt64(inodeLim) then BadInodes else FewInodes
    ensures r.Err? && !dirSpecified && fsType != DEPENDENT && fsType != INDEPENDENT ==> r.error == BadType
  {
    if dirSpecified {
      if typeSpecified {
        return Err(TypeAndDir);
      }
      if parentSpecified {
        return Err(ParentAndDir);
      }
      if inodesSpecified {
        return Err(InodesAndDir);
      }
    }
    if typeSpecified {
      if fsType == DEPENDENT {
        if inodesSpecified {
          return Err(InodesAndDependent);
        }
      } else if fsType == INDEPENDENT {
        if parentSpecified {
          return Err(ParentAndIndependent);
        }
      } else {
        return Err(BadType);
      }
    }
    if typeSpecified && inodesSpecified {
      if !IsInt64(inodeLim) {
        return Err(BadInodes);
      }
      if SignedValue(inodeLim) < 1024 {
        return Err(FewInodes);
      }
    }
    return Ok(true);
  }

  /** The fields of an accepted storage class. */
  method FillIn(volume: VolumeOptions, dirSpecified: bool, dirPath: string, typeSpecified: bool, fsType: string,
                uidSpecified: bool, uid: string, gidSpecified: bool, gid: string, parentSpecified: bool,
                parentFileset: string, inodesSpecified: bool, inodeLim: string) returns (v: VolumeOptions)
    requires volume == VolumeOptions(volume.volBackendFs, false, "", "", "", volume.clusterId, "", "", "")
    requires dirSpecified <==> !typeSpecified
    requires dirSpecified ==> !parentSpecified && !inodesSpecified
    ensures v == VolumeOptions(volume.volBackendFs, typeSpecified, if dirSpecified then dirPath else "",
                               if uidSpecified then uid else "", if gidSpecified then gid else "", volume.clusterId,
                               if typeSpecified then fsType else "", if inodesSpecified then inodeLim else "",
                               if parentSpecified then parentFileset else "")
  {
    v := volume;
    if dirSpecified {
      v := v.(volDirBasePath := dirPath, isFilesetBased := false);
    }
    if typeSpecified {
      v := v.(isFilesetBased := true);
    }
    if uidSpecified {
      v := v.(uid := uid);
    }
    if gidSpecified {
      v := v.(gid := gid);
    }
    if v.isFilesetBased {
      if typeSpecified {
        v := v.(filesetType := fsType);
      }
      if parentSpecified {
        v := v.(parentFileset := parentFileset);
      }
      if inodesSpecified {
        v := v.(inodeLimit := inodeLim);
      }
    }
  }

  /** The owner: a group without a user belongs to root. */
  method OwnerOptions(volOptions: map<string, string>) returns (uidSpecified: bool, uid: string, gidSpecified: bool,
      gid: string)
    ensures (if uidSpecified then uid else "") == Meaning(volOptions).uid
    ensures (if gidSpecified then gid else "") == Meaning(volOptions).gid
  {
    uid, uidSpecified := Get(volOptions, "uid"), "uid" in volOptions;
    gid, gidSpecified := Get(volOptions, "gid"), "gid" in volOptions;
    if uidSpecified && uid == "" {
      uidSpecified := false;
    }
    if gidSpecified && gid == "" {
      gidSpecified := false;
    }
    if gidSpecified && !uidSpecified {
      uidSpecified := true;
      uid := "0";
    }
  }

  /**
   The flags and early returns of the source accept exactly the storage classes above and resolve them as stated;
   the others get the first objection.
   */
  method GetScaleVolumeOptions(volOptions: map<string, string>) returns (r: Result<VolumeOptions>)
    ensures r.Ok? <==> Accepts(volOptions)
    ensures r.Ok? ==> r.value == Meaning(volOptions)
    ensures r.Err? ==> r.error == Objection(volOptions)
  {
    var volBckFs, fsSpecified := Get(volOptions, "volBackendFs"), "volBackendFs" in volOptions;
    var volDirPath, volDirPathSpecified := Get(volOptions, "volDirBasePath"), "volDirBasePath" in volOptions;
    var clusterID, clusterIDSpecified := Get(volOptions, "clusterId"), "clusterId" in volOptions;
    var uidSpecified, uid, gidSpecified, gid := OwnerOptions(volOptions);
    var fsType, fsTypeSpecified := Get(volOptions, "filesetType"), "filesetType" in volOptions;
    var inodeLim, inodeLimSpecified := Get(volOptions, "inodeLimit"), "inodeLimit" in volOptions;
    var parentFileset, isparentFilesetSpecified := Get(volOptions, "parentFileset"), "parentFileset" in volOptions;
    var v := VolumeOptions("", false, "", "", "", "", "", "", "");
    if fsSpecified && volBckFs == "" {
      fsSpecified := false;
    }
    if fsSpecified {
      v := v.(volBackendFs := volBckFs);
    } else {
      return Err(NoBackendFs);
    }
    if fsTypeSpecified && fsType == "" {
      fsTypeSpecified := false;
    }
    if volDirPathSpecified && volDirPath == "" {
      volDirPathSpecified := false;
    }
    if !fsTypeSpecified && !volDirPathSpecified {
      fsTypeSpecified := true;
      fsType := INDEPENDENT;
    }
    if inodeLimSpecified && inodeLim == "" {
      inodeLimSpecified := false;
    }
    if isparentFilesetSpecified && parentFileset == "" {
      isparentFilesetSpecified := false;
    }
    if clusterIDSpecified && clusterID != "" {
      v := v.(clusterId := clusterID);
    }
    ghost var dir, type_ := Get(volOptions, "volDirBasePath"), TypeOf(volOptions);
    assert (volDirPathSpecified <==> dir != "") && (fsTypeSpecified <==> type_ != "") &&
      (fsTypeSpecified ==> fsType == type_);
    var objection := FirstObjection(volDirPathSpecified, fsTypeSpecified, fsType, isparentFilesetSpecified,
      inodeLimSpecified, inodeLim);
    assert objection.Ok? <==> Accepts(volOptions);
    if objection.Err? {
      return Err(objection.error);
    }
    v := FillIn(v, volDirPathSpecified, volDirPath, fsTypeSpecified, fsType, uidSpecified, uid, gidSpecified, gid,
                isparentFilesetSpecified, parentFileset, inodeLimSpecified, inodeLim);
    return Ok(v);
  }

  // ---------- the fileset request ----------

  datatype FilesetRequest = FilesetRequest(inodeSpace: string, maxNumInodes: string, allocInodes: string, owner: string)

  /** The options createFilesetBasedVol passes on; the block size divides the volume size unless a limit is given. */
  method FilesetOptions(v: VolumeOptions, size: UInt64, blockSize: UInt64) returns (opt: map<string, string>)
    requires v.inodeLimit == "" ==> blockSize != 0
    ensures PassedOn(v, opt, size, blockSize)
  {
    opt := map[];
    if v.uid != "" {
      opt := opt["uid" := v.uid];
    }
    if v.gid != "" {
      opt := opt["gid" := v.gid];
    }
    if v.filesetType != "" {
      opt := opt["filesetType" := v.filesetType];
    }
    if v.inodeLimit != "" {
      opt := opt["inodeLimit" := v.inodeLimit];
    } else {
      var inodeLimit := size / blockSize;
      if inodeLimit < 1024 {
        inodeLimit := 1024;
      }
      opt := opt["inodeLimit" := FormatUint(inodeLimit)];
    }
    if v.parentFileset != "" {
      opt := opt["parentFileset" := v.parentFileset];
    }
  }

  function Inodes(v: VolumeOptions, size: UInt64, blockSize: UInt64): string
    requires v.inodeLimit == "" ==> blockSize != 0
  {
    if v.inodeLimit != "" then v.inodeLimit
    else FormatUint(if size / blockSize < 1024 then 1024 else size / blockSize)
  }

  /** CreateFileset's request body, with the older spellings of two options as a second choice. */
  method FilesetRequestFrom(opts: map<string, string>) returns (r: FilesetRequest)
    ensures r == RequestFrom(opts)
  {
    r := FilesetRequest("", "", "", "");
    var filesetType, filesetTypeSpecified := Get(opts, "filesetType"), "filesetType" in opts;
    var inodeLimit, inodeLimitSpecified := Get(opts, "inodeLimit"), "inodeLimit" in opts;
    if !filesetTypeSpecified {
      filesetType, filesetTypeSpecified := Get(opts, "fileset-type"), "fileset-type" in opts;
    }
    if !inodeLimitSpecified {
      inodeLimit, inodeLimitSpecified := Get(opts, "inode-limit"), "inode-limit" in opts;
    }
    if filesetTypeSpecified && filesetType == DEPENDENT {
      r := r.(inodeSpace := if "parentFileset" in opts then opts["parentFileset"] else "root");
    } else {
      r := r.(inodeSpace := "new");
      if inodeLimitSpecified {
        r := r.(maxNumInodes := inodeLimit, allocInodes := inodeLimit);
      }
    }
    if "uid" in opts && "gid" in opts {
      r := r.(owner := opts["uid"] + ":" + opts["gid"]);
    } else if "uid" in opts {
      r := r.(owner := opts["uid"]);
    }
  }

  function Either(opts: map<string, string>, key: string, older: string): string {
    if key in opts then opts[key] else Get(opts, older)
  }

  function RequestFrom(opts: map<string, string>): FilesetRequest {
    var dependent := Either(opts, "filesetType", "fileset-type") == DEPENDENT;
    var inodes := if dependent then "" else Either(opts, "inodeLimit", "inode-limit");
    FilesetRequest(
      if dependent then (if "parentFileset" in opts then opts["parentFileset"] else "root") else "new",
      inodes, inodes,
      if "uid" !in opts then "" else if "gid" in opts then opts["uid"] + ":" + opts["gid"] else opts["uid"])
  }

  /** The older spellings count only where the newer ones are missing; an owner is a user with or without a group. */
  lemma BodyExactly(opts: map<string, string>)
    ensures var r := RequestFrom(opts);
      var fsType := if "filesetType" in opts then opts["filesetType"]
                    else if "fileset-type" in opts then opts["fileset-type"] else "";
      var inodes := if "inodeLimit" in opts then opts["inodeLimit"]
                    else if "inode-limit" in opts then opts["inode-limit"] else "";
      && (fsType == "dependent" ==> r.maxNumInodes == r.allocInodes == "")
      && (fsType == "dependent" ==> r.inodeSpace == if "parentFileset" in opts then opts["parentFileset"] else "root")
      && (fsType != "dependent" ==> r.maxNumInodes == r.allocInodes == inodes && r.inodeSpace == "new")
      && ("uid" !in opts ==> r.owner == "")
      && ("uid" in opts && "gid" !in opts ==> r.owner == opts["uid"])
      && ("uid" in opts && "gid" in opts ==> r.owner == opts["uid"] + ":" + opts["gid"])
  {
  }

  /** What holds of the request of an accepted fileset storage class. */
  ghost predicate GoodRequest(volOptions: map<string, string>, r: FilesetRequest) {
    && (r.maxNumInodes != "" <==> TypeOf(volOptions) == INDEPENDENT)
    && r.allocInodes == r.maxNumInodes
    && (r.maxNumInodes != "" ==> IsNumeral(r.maxNumInodes) && SignedValue(r.maxNumInodes) >= 1024)
    && (TypeOf(volOptions) == DEPENDENT ==>
         r.inodeSpace == if Get(volOptions, "parentFileset") == "" then "root" else Get(volOptions, "parentFileset"))
    && (r.inodeSpace == "new" <==> TypeOf(volOptions) == INDEPENDENT || Get(volOptions, "parentFileset") == "new")
    && (r.owner == "" <==> Get(volOptions, "uid") == "" && Get(volOptions, "gid") == "")
    && (Get(volOptions, "uid") == "" && Get(volOptions, "gid") != "" ==> r.owner == "0:" + Get(volOptions, "gid"))
  }

  lemma InodesAreMany(v: VolumeOptions, size: UInt64, blockSize: UInt64)
    requires v.inodeLimit == "" ==> blockSize != 0
    requires v.inodeLimit != "" ==> IsNumeral(v.inodeLimit) && SignedValue(v.inodeLimit) >= 1024
    ensures Inodes(v, size, blockSize) != ""
    ensures IsNumeral(Inodes(v, size, blockSize)) && SignedValue(Inodes(v, size, blockSize)) >= 1024
  {
    if v.inodeLimit == "" {
      var n := if size / blockSize < 1024 then 1024 else size / blockSize;
      DecimalOfFormat(n);
      assert IsDigit(FormatUint(n)[0]);
    }
  }

  /** The options passed on say what was resolved. */
  ghost predicate PassedOn(v: VolumeOptions, opt: map<string, string>, size: UInt64, blockSize: UInt64)
    requires v.inodeLimit == "" ==> blockSize != 0
  {
    && opt.Keys <= {"uid", "gid", "filesetType", "inodeLimit", "parentFileset"}
    && Get(opt, "uid") == v.uid && ("uid" in opt <==> v.uid != "")
    && Get(opt, "gid") == v.gid && ("gid" in opt <==> v.gid != "")
    && Get(opt, "filesetType") == v.filesetType && ("filesetType" in opt <==> v.filesetType != "")
    && Get(opt, "parentFileset") == v.parentFileset && ("parentFileset" in opt <==> v.parentFileset != "")
    && "inodeLimit" in opt && opt["inodeLimit"] == Inodes(v, size, blockSize)
  }

  lemma OptionsMakeRequest(volOptions: map<string, string>, opt: map<string, string>, size: UInt64, blockSize: UInt64)
    requires Accepts(volOptions) && Get(volOptions, "volDirBasePath") == ""
    requires (Get(volOptions, "inodeLimit") == "" ==> blockSize != 0)
    requires PassedOn(Meaning(volOptions), opt, size, blockSize) && "filesetType" in opt
    ensures GoodRequest(volOptions, RequestFrom(opt))
  {
    InodesAreMany(Meaning(volOptions), size, blockSize);
    assert "0" + ":" == "0:";
  }

  /** The request in terms of the options: type, parent, inode counts, and the four cases of an owner. */
  ghost predicate SpelledOut(opts: map<string, string>, size: UInt64, blockSize: UInt64, r: FilesetRequest) {
    && (if Typed(opts, "dependent")
        then r.maxNumInodes == "" &&
             r.inodeSpace == (if Blank(opts, "parentFileset") then "root" else opts["parentFileset"])
        else r.inodeSpace == "new" &&
             if !Blank(opts, "inodeLimit") then r.maxNumInodes == opts["inodeLimit"]
             else blockSize != 0 && AllDigits(r.maxNumInodes) &&
                  Decimal(r.maxNumInodes) == (if size / blockSize < 1024 then 1024 else size / blockSize))
    && r.allocInodes == r.maxNumInodes
    && r.owner ==
       if Blank(opts, "gid") then (if Blank(opts, "uid") then "" else opts["uid"])
       else (if Blank(opts, "uid") then "0" else opts["uid"]) + ":" + opts["gid"]
  }

  lemma RequestExactly(volOptions: map<string, string>, opt: map<string, string>, size: UInt64, blockSize: UInt64)
    requires Accepts(volOptions) && Get(volOptions, "volDirBasePath") == ""
    requires (Get(volOptions, "inodeLimit") == "" ==> blockSize != 0)
    requires PassedOn(Meaning(volOptions), opt, size, blockSize) && "filesetType" in opt
    ensures SpelledOut(volOptions, size, blockSize, RequestFrom(opt))
  {
    MeaningExactly(volOptions);
    ClassesExactly(volOptions);
    if Blank(volOptions, "inodeLimit") {
      DecimalOfFormat(if size / blockSize < 1024 then 1024 else size / blockSize);
    }
  }

  /**
   Storage class to request, for every accepted fileset storage class, every size and every block size (which is only
   looked at, and then divides, when no inode limit is given): inode counts
   are sent exactly for independent filesets, are equal and stand for at least 1024; a dependent fileset names its
   parent or root; a group never comes without an owner.
   */
  method RequestForClass(volOptions: map<string, string>, size: UInt64, blockSize: UInt64) returns (r: FilesetRequest)
    requires Accepts(volOptions) && Get(volOptions, "volDirBasePath") == ""
    requires (Get(volOptions, "inodeLimit") == "" ==> blockSize != 0)
    ensures GoodRequest(volOptions, r)
    ensures SpelledOut(volOptions, size, blockSize, r)
  {
    var v := GetScaleVolumeOptions(volOptions);
    var opt := FilesetOptions(v.value, size, blockSize);
    OptionsMakeRequest(volOptions, opt, size, blockSize);
    RequestExactly(volOptions, opt, size, blockSize);
    r := FilesetRequestFrom(opt);
  }

  /**
    An empty value counts as an absent one throughout: the flags give storage classes alike but for that the same
    outcome.
  */
  method EmptyIsAbsent(a: map<string, string>, b: map<string, string>) returns (ra: Result<VolumeOptions>,
      rb: Result<VolumeOptions>)
    requires forall k :: Get(a, k) == Get(b, k)
    ensures ra == rb
    ensures ra.Ok? <==> Accepts(a)
  {
    ra := GetScaleVolumeOptions(a);
    rb := GetScaleVolumeOptions(b);
    assert Accepts(a) <==> Accepts(b);
  }
}
