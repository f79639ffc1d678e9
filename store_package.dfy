/**
 * The decisions of the store-package script: which files stay out of the
 * archive, whether a parsed manifest meets the store's requirements, and
 * which icon sizes are missing. The file system answers (file names, the
 * parsed manifest, which icon files exist) are inputs.
 */
module StorePackage {
  import opened Wrappers
  import opened Decimal

  // ------------------------------------------------------------ exclusion

  /** The files the script leaves out of the archive, in its own order. */
  const ExcludeFiles: seq<string> := [
    "create_store_package.js",
    "generate_icons.html",
    "create_icons.html",
    "create_icons.js",
    "convert_svg_to_png.html",
    "convert_to_png.html",
    "test_extension.html",
    "README.md",
    "TESTING_GUIDE.md",
    ".git",
    ".gitignore",
    "node_modules",
    "package.json",
    "package-lock.json"
  ]

  /** The files the script copies into the archive. */
  const IncludeFiles: seq<string> := [
    "manifest.json",
    "popup.html",
    "popup.css",
    "popup.js",
    "background.js",
    "task-manager-help.html"
  ]

  /** `s.startsWith(p)`. */
  predicate StartsWith(s: string, p: string) {
    p <= s
  }

  /** A file is left out when its name is listed, or its path starts with any listed entry. */
  ghost predicate Excluded(fileName: string, relativePath: string) {
    fileName in ExcludeFiles || exists k :: 0 <= k < |ExcludeFiles| && StartsWith(relativePath, ExcludeFiles[k])
  }

  /**
   * `shouldExcludeFile`, given the base name and the path relative to the
   * working directory.
   */
  method ShouldExcludeFile(fileName: string, relativePath: string) returns (exclude: bool)
    ensures exclude == Excluded(fileName, relativePath)
  {
    if fileName in ExcludeFiles {
      return true;
    }
    var k := 0;
    while k < |ExcludeFiles|
      invariant 0 <= k <= |ExcludeFiles|
      invariant forall j :: 0 <= j < k ==> !StartsWith(relativePath, ExcludeFiles[j])
    {
      if StartsWith(relativePath, ExcludeFiles[k]) {
        return true;
      }
      k := k + 1;
    }
    return false;
  }

  /** The ".git" entry matches by prefix: every path under ".github" is left out too. */
  lemma GitPrefixExcludesGithub(fileName: string, rest: string)
    ensures Excluded(fileName, ".github/" + rest)
  {
    var path := ".github/" + rest;
    assert ExcludeFiles[9] == ".git";
    assert path[..4] == ".git";
    assert StartsWith(path, ExcludeFiles[9]);
  }

  /** Prefix matching also drops any file whose path merely begins like a listed name. */
  lemma ListedNameAsPrefix(fileName: string, k: nat, suffix: string)
    requires k < |ExcludeFiles|
    ensures Excluded(fileName, ExcludeFiles[k] + suffix)
  {
    assert (ExcludeFiles[k] + suffix)[..|ExcludeFiles[k]|] == ExcludeFiles[k];
  }

  /** No listed name is a prefix of a top-level file the archive must carry. */
  lemma IncludedFilesAreKept(f: string)
    requires f in IncludeFiles
    ensures !Excluded(f, f)
  {
    forall k | 0 <= k < |ExcludeFiles|
      ensures !StartsWith(f, ExcludeFiles[k])
    {
      var e := ExcludeFiles[k];
      assert |e| >= 2 && |f| >= 2 && (f[0] != e[0] || f[1] != e[1]);
    }
  }

  // ------------------------------------------------------------ manifest

  /** A parsed JSON value; numbers are reals. */
  datatype Json =
    | JNull
    | JBool(b: bool)
    | JNumber(n: real)
    | JString(s: string)
    | JArray(elems: seq<Json>)
    | JObject(members: map<string, Json>)

  /** Whether `key` names an index of an array or string of length `len`. */
  predicate IsIndex(key: string, len: nat) {
    && |key| > 0 && AllDigits(key) && (|key| == 1 || key[0] != '0')
    && ParseDecimal(key) < len
  }

  /**
   * `v[key]` for the keys the validator reads: an object's own member, an
   * array's element or a string's character at a decimal index, `undefined`
   * (None) otherwise. Reading from null throws; callers never do it.
   */
  function Get(v: Json, key: string): (r: Option<Json>)
    ensures v.JObject? ==> (r.Some? <==> key in v.members)
    ensures v.JObject? && key in v.members ==> r == Some(v.members[key])
    ensures v.JArray? ==> (r.Some? <==> IsIndex(key, |v.elems|))
    ensures v.JArray? && IsIndex(key, |v.elems|) ==> r == Some(v.elems[ParseDecimal(key)])
    ensures v.JString? ==> (r.Some? <==> IsIndex(key, |v.s|))
    ensures v.JString? && IsIndex(key, |v.s|) ==> r == Some(JString([v.s[ParseDecimal(key)]]))
    ensures r.Some? ==> v.JObject? || v.JArray? || v.JString?
  {
    match v
    case JObject(m) => if key in m then Some(m[key]) else None
    case JArray(es) => if IsIndex(key, |es|) then Some(es[ParseDecimal(key)]) else None
    case JString(s) => if IsIndex(key, |s|) then Some(JString([s[ParseDecimal(key)]])) else None
    case _ => None
  }

  /** JavaScript truthiness; `undefined` is None. */
  predicate Truthy(v: Option<Json>)
    ensures Truthy(v) <==>
      v.Some? && v.value != JNull && v.value != JBool(false) && v.value != JNumber(0.0) && v.value != JString("")
  {
    match v
    case None => false
    case Some(JNull) => false
    case Some(JBool(b)) => b
    case Some(JNumber(n)) => n != 0.0
    case Some(JString(s)) => |s| > 0
    case Some(JArray(_)) => true
    case Some(JObject(_)) => true
  }

  /** The fields the validator insists on, in the order it checks them. */
  const RequiredFields: seq<string> := ["name", "version", "description"]

  /** Why a manifest is refused. `NullManifest` is the type error of reading a member of null. */
  datatype ManifestError = NullManifest | WrongManifestVersion | MissingField(field: string) | MissingIcon128

  /** `manifest.manifest_version === 3`. */
  predicate IsVersion3(manifest: Json) {
    Get(manifest, "manifest_version") == Some(JNumber(3.0))
  }

  /** Every required field is present and truthy. */
  predicate HasRequiredFields(manifest: Json) {
    forall k :: 0 <= k < |RequiredFields| ==> Truthy(Get(manifest, RequiredFields[k]))
  }

  /** `manifest.icons && manifest.icons["128"]`. */
  predicate HasIcon128(manifest: Json) {
    var icons := Get(manifest, "icons");
    Truthy(icons) && Truthy(Get(icons.value, "128"))
  }

  /** The manifest passes every check. */
  predicate Acceptable(manifest: Json) {
    !manifest.JNull? && IsVersion3(manifest) && HasRequiredFields(manifest) && HasIcon128(manifest)
  }

  /**
   * `validateManifest`'s checks on the parsed manifest: version, then the
   * required fields in order, then the 128-pixel icon; the first failing
   * check decides the error, and an acceptable manifest is returned as is.
   */
  method ValidateManifest(manifest: Json) returns (r: Result<Json, ManifestError>)
    ensures r.Success? <==> Acceptable(manifest)
    ensures r.Success? ==> r.value == manifest
    ensures r == Failure(NullManifest) <==> manifest.JNull?
    ensures r == Failure(WrongManifestVersion) <==> !manifest.JNull? && !IsVersion3(manifest)
    ensures forall k :: 0 <= k < |RequiredFields| ==>
              (r == Failure(MissingField(RequiredFields[k])) <==>
                 && !manifest.JNull? && IsVersion3(manifest)
                 && !Truthy(Get(manifest, RequiredFields[k]))
                 && forall j :: 0 <= j < k ==> Truthy(Get(manifest, RequiredFields[j])))
    ensures r.Failure? && r.error.MissingField? ==> r.error.field in RequiredFields
    ensures r == Failure(MissingIcon128) <==>
              !manifest.JNull? && IsVersion3(manifest) && HasRequiredFields(manifest) && !HasIcon128(manifest)
  {
    if manifest.JNull? {
      return Failure(NullManifest);
    }
    if Get(manifest, "manifest_version") != Some(JNumber(3.0)) {
      return Failure(WrongManifestVersion);
    }
    var k := 0;
    while k < |RequiredFields|
      invariant 0 <= k <= |RequiredFields|
      invariant forall j :: 0 <= j < k ==> Truthy(Get(manifest, RequiredFields[j]))
    {
      if !Truthy(Get(manifest, RequiredFields[k])) {
        return Failure(MissingField(RequiredFields[k]));
      }
      k := k + 1;
    }
    var icons := Get(manifest, "icons");
    if !Truthy(icons) || !Truthy(Get(icons.value, "128")) {
      return Failure(MissingIcon128);
    }
    return Success(manifest);
  }

  // ------------------------------------------------------------ icons

  /** The icon sizes the store asks for, in the order they are checked. */
  const IconSizes: seq<nat> := [16, 32, 48, 128]

  /** The label `${size}x${size}` a missing icon is reported with. */
  function SizeLabel(size: nat): (text: string)
    ensures |text| == 2 * |DecimalString(size)| + 1
    ensures text[..|DecimalString(size)|] == DecimalString(size)
    ensures text[|DecimalString(size)|] == 'x'
    ensures text[|DecimalString(size)| + 1..] == DecimalString(size)
  {
    DecimalString(size) + "x" + DecimalString(size)
  }

  /** Different sizes are reported with different labels. */
  lemma SizeLabelInjective(m: nat, n: nat)
    requires SizeLabel(m) == SizeLabel(n)
    ensures m == n
  {
    var a, b := DecimalString(m), DecimalString(n);
    assert |a| == |b|;
    assert SizeLabel(m)[..|a|] == a && SizeLabel(n)[..|b|] == b;
    DecimalStringInjective(m, n);
  }

  /** The sizes of `sizes` whose icon file does not exist, in their order. */
  function AbsentSizes(sizes: seq<nat>, existing: set<nat>): (absent: seq<nat>)
    ensures forall x :: x in absent <==> x in sizes && x !in existing
    ensures |absent| <= |sizes|
    decreases |sizes|
  {
    if |sizes| == 0 then []
    else
      var n := |sizes| - 1;
      AbsentSizes(sizes[..n], existing) + (if sizes[n] in existing then [] else [sizes[n]])
  }

  /** Strictly increasing, so also free of repeats. */
  predicate Increasing(s: seq<nat>) {
    forall i, j :: 0 <= i < j < |s| ==> s[i] < s[j]
  }

  /** Filtering keeps the order: an increasing size list gives an increasing missing list. */
  lemma {:induction false} AbsentSizesIncreasing(sizes: seq<nat>, existing: set<nat>)
    requires Increasing(sizes)
    ensures Increasing(AbsentSizes(sizes, existing))
    decreases |sizes|
  {
    if |sizes| > 0 {
      var n := |sizes| - 1;
      assert Increasing(sizes[..n]);
      AbsentSizesIncreasing(sizes[..n], existing);
      var prefix := AbsentSizes(sizes[..n], existing);
      forall i | 0 <= i < |prefix|
        ensures prefix[i] < sizes[n]
      {
        assert prefix[i] in sizes[..n];
      }
    }
  }

  /** The labels of a list of sizes, in order. */
  function Labels(sizes: seq<nat>): seq<string>
  {
    seq(|sizes|, i requires 0 <= i < |sizes| => SizeLabel(sizes[i]))
  }

  /**
   * `validateIcons`' missing list: one label per required size whose file is
   * absent, in the order of the required sizes.
   */
  method MissingIcons(existing: set<nat>) returns (missingIcons: seq<string>)
    ensures missingIcons == Labels(AbsentSizes(IconSizes, existing))
  {
    missingIcons := [];
    var k := 0;
    while k < |IconSizes|
      invariant 0 <= k <= |IconSizes|
      invariant missingIcons == Labels(AbsentSizes(IconSizes[..k], existing))
    {
      AbsentSizesStep(IconSizes, existing, k);
      LabelsAppend(AbsentSizes(IconSizes[..k], existing), IconSizes[k]);
      if IconSizes[k] !in existing {
        missingIcons := missingIcons + [SizeLabel(IconSizes[k])];
      }
      k := k + 1;
    }
    assert IconSizes[..k] == IconSizes;
  }

  lemma AbsentSizesStep(sizes: seq<nat>, existing: set<nat>, k: nat)
    requires k < |sizes|
    ensures AbsentSizes(sizes[..k + 1], existing) ==
      AbsentSizes(sizes[..k], existing) + (if sizes[k] in existing then [] else [sizes[k]])
  {
    assert sizes[..k + 1][..k] == sizes[..k];
  }

  lemma LabelsAppend(sizes: seq<nat>, size: nat)
    ensures Labels(sizes + [size]) == Labels(sizes) + [SizeLabel(size)]
  {
  }

  /** A size's label is listed exactly when the size is missing. */
  lemma MissingLabelsExact(sizes: seq<nat>, existing: set<nat>)
    ensures forall x :: x in sizes ==> (SizeLabel(x) in Labels(AbsentSizes(sizes, existing)) <==> x !in existing)
  {
    var absent := AbsentSizes(sizes, existing);
    var labels := Labels(absent);
    forall x | x in sizes
      ensures SizeLabel(x) in labels <==> x !in existing
    {
      if x !in existing {
        var i :| 0 <= i < |absent| && absent[i] == x;
        assert labels[i] == SizeLabel(x);
      }
      if SizeLabel(x) in labels {
        var i :| 0 <= i < |labels| && labels[i] == SizeLabel(x);
        SizeLabelInjective(absent[i], x);
      }
    }
  }

  /** The four required sizes are checked in increasing order, so the missing list is too. */
  lemma MissingIconsInOrder(existing: set<nat>)
    ensures Increasing(AbsentSizes(IconSizes, existing))
  {
    AbsentSizesIncreasing(IconSizes, existing);
  }
}
