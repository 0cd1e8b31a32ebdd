/** The dependency check of the controller script
    `optimization_toolboxV3.21.py` (`check_dependencies`): the installed-package
    metadata is a parameter. */
module ToolDependencies {
  import opened Wrappers
  import opened Text

  const BasePackages: seq<string> := ["streamlit", "pandas", "numpy", "openpyxl"]

  /** Python's `a < b` on strings: code point by code point, a proper prefix
      first. */
  predicate LessThan(a: string, b: string) {
    if |b| == 0 then false
    else if |a| == 0 then true
    else if a[0] != b[0] then a[0] < b[0]
    else LessThan(a[1..], b[1..])
  }

  lemma {:induction false} LessThanIrreflexive(a: string)
    ensures !LessThan(a, a)
  {
    if |a| > 0 {
      LessThanIrreflexive(a[1..]);
    }
  }

  const UnpackError: string := "too many values to unpack (expected 2)"

  /** Where `>=` first occurs in `s`. */
  function FindGe(s: string): (r: Option<nat>)
    ensures r.None? <==> !Contains(s, ">=")
    ensures r.Some? ==> OccursAt(s, ">=", r.value)
    decreases |s|
  {
    if |s| < 2 then None
    else if s[0] == '>' && s[1] == '=' then Some(0)
    else match FindGe(s[1..])
      case None => None
      case Some(i) => assert s[1..][i..i + 2] == s[i + 1..i + 3]; Some(i + 1)
  }

  /** `pkg_spec.split(">=")` yields more than two pieces, so unpacking it into
      a name and a version raises `ValueError`. */
  predicate TooManyParts(spec: string) {
    var at := FindGe(spec);
    at.Some? && Contains(spec[at.value + 2..], ">=")
  }

  /** Whether one spec is missing, given `version` (the installed version of
      a package, `None` for `PackageNotFoundError`); the error of a spec
      with more than one `>=`. */
  function SpecMissing(spec: string, version: string -> Option<string>): (r: Result<bool, string>)
    ensures r.Failure? <==> TooManyParts(spec)
    ensures r.Failure? ==> r.error == UnpackError
    ensures !Contains(spec, ">=") ==> r == Success(version(spec).None?)
  {
    match FindGe(spec)
    case None => Success(version(spec).None?)
    case Some(at) =>
      var pkgName := Strip(spec[..at]);
      var versionSpec := spec[at + 2..];
      assert TooManyParts(spec) <==> Contains(versionSpec, ">=");
      if Contains(versionSpec, ">=") then Failure(UnpackError)
      else match version(pkgName)
        case None => Success(true)
        case Some(installed) => Success(LessThan(installed, Strip(versionSpec)))
  }

  /** The specs found missing, in order, or the first error. */
  function Missing(specs: seq<string>, version: string -> Option<string>): (r: Result<seq<string>, string>)
    ensures r.Failure? ==> r.error == UnpackError
  {
    if |specs| == 0 then Success([])
    else
      match Missing(specs[..|specs| - 1], version)
      case Failure(e) => Failure(e)
      case Success(prior) =>
        match SpecMissing(specs[|specs| - 1], version)
        case Failure(e) => Failure(e)
        case Success(m) => Success(prior + if m then [specs[|specs| - 1]] else [])
  }

  /** The missing specs that contain (as text) one of `names`. */
  function RequiredMissing(missing: seq<string>, names: seq<string>): (r: seq<string>)
    ensures forall p :: p in r <==> p in missing && exists n :: n in names && Contains(p, n)
  {
    if |missing| == 0 then []
    else
      var p := missing[|missing| - 1];
      RequiredMissing(missing[..|missing| - 1], names)
        + if exists n :: n in names && Contains(p, n) then [p] else []
  }

  /** What `check_dependencies` returns or raises. */
  function DependencyReport(required: seq<string>, optional: seq<string>, version: string -> Option<string>)
    : Result<(bool, seq<string>), string>
  {
    match Missing(BasePackages + required + optional, version)
    case Failure(e) => Failure(e)
    case Success(missing) =>
      var requiredMissing := RequiredMissing(missing, required + BasePackages);
      if requiredMissing != [] then Success((false, requiredMissing)) else Success((true, []))
  }

  /** `check_dependencies`: `None` stands for an absent list. */
  method CheckDependencies(required: Option<seq<string>>, optional: Option<seq<string>>,
                           version: string -> Option<string>)
    returns (r: Result<(bool, seq<string>), string>)
    ensures r == DependencyReport(required.GetOr([]), optional.GetOr([]), version)
  {
    var req := required.GetOr([]);
    var opt := optional.GetOr([]);
    var missing := CheckAll(BasePackages + req + opt, version);
    if missing.Failure? {
      return Failure(missing.error);
    }
    var requiredMissing := RequiredMissing(missing.value, req + BasePackages);
    if requiredMissing != [] {
      return Success((false, requiredMissing));
    }
    return Success((true, []));
  }

  /** The loop of `check_dependencies` over every spec: the specs found
      missing, in order, or the error of the first spec with two `>=`. */
  method CheckAll(allPackages: seq<string>, version: string -> Option<string>)
    returns (r: Result<seq<string>, string>)
    ensures r == Missing(allPackages, version)
  {
    var missingPackages := [];
    var i := 0;
    while i < |allPackages|
      invariant 0 <= i <= |allPackages|
      invariant Missing(allPackages[..i], version) == Success(missingPackages)
    {
      var pkgSpec := allPackages[i];
      var outcome := CheckSpec(pkgSpec, version);
      if outcome.Failure? {
        assert pkgSpec in allPackages && TooManyParts(pkgSpec);
        MissingFailsOnlyOnBadSpec(allPackages, version);
        return Failure(UnpackError);
      }
      MissingNext(allPackages, i, version, missingPackages);
      if outcome.value {
        missingPackages := missingPackages + [pkgSpec];
      } else {
        assert missingPackages + [] == missingPackages;
      }
      i := i + 1;
    }
    assert allPackages[..i] == allPackages;
    return Success(missingPackages);
  }

  /** The `try` block for one spec: whether it is missing, or the
      `ValueError` of a spec with two `>=`. */
  method CheckSpec(pkgSpec: string, version: string -> Option<string>) returns (r: Result<bool, string>)
    ensures r == SpecMissing(pkgSpec, version)
  {
    var geAt := FindGe(pkgSpec);
    if geAt.Some? {
      var versionSpec := pkgSpec[geAt.value + 2..];
      if Contains(versionSpec, ">=") {
        return Failure(UnpackError);
      }
      var pkgName := Strip(pkgSpec[..geAt.value]);
      var installedVersion := version(pkgName);
      if installedVersion.None? {
        return Success(true);
      } else if LessThan(installedVersion.value, Strip(versionSpec)) {
        return Success(true);
      }
      return Success(false);
    } else {
      return Success(version(pkgSpec).None?);
    }
  }

  /** Checking one more spec that raises nothing. */
  lemma MissingNext(specs: seq<string>, i: nat, version: string -> Option<string>, prior: seq<string>)
    requires i < |specs| && Missing(specs[..i], version) == Success(prior)
    requires SpecMissing(specs[i], version).Success?
    ensures Missing(specs[..i + 1], version)
         == Success(prior + if SpecMissing(specs[i], version).value then [specs[i]] else [])
  {
    assert specs[..i + 1][..i] == specs[..i];
  }

  /** The check fails exactly when some spec holds `>=` twice. */
  lemma {:induction false} MissingFailsOnlyOnBadSpec(specs: seq<string>, version: string -> Option<string>)
    ensures Missing(specs, version).Failure? <==> exists s :: s in specs && TooManyParts(s)
  {
    if |specs| > 0 {
      var init := specs[..|specs| - 1];
      assert specs == init + [specs[|specs| - 1]];
      MissingFailsOnlyOnBadSpec(init, version);
    }
  }

  /** The missing list holds exactly the specs that are missing. */
  lemma {:induction false} MissingMembers(specs: seq<string>, version: string -> Option<string>)
    requires Missing(specs, version).Success?
    ensures forall p :: p in Missing(specs, version).value <==> p in specs && SpecMissing(p, version) == Success(true)
  {
    if |specs| > 0 {
      var init := specs[..|specs| - 1];
      assert specs == init + [specs[|specs| - 1]];
      MissingMembers(init, version);
      MissingFailsOnlyOnBadSpec(specs, version);
      MissingFailsOnlyOnBadSpec(init, version);
    }
  }

  /** `(True, [])` when nothing required is missing, otherwise `False` with the
      required specs that are missing: each is a spec that was checked, found
      missing, and names a required or base package. */
  lemma ReportMeaning(required: seq<string>, optional: seq<string>, version: string -> Option<string>)
    requires DependencyReport(required, optional, version).Success?
    ensures var report := DependencyReport(required, optional, version).value;
      (report.0 <==> report.1 == [])
      && forall p :: p in report.1 <==>
           p in BasePackages + required + optional && SpecMissing(p, version) == Success(true)
           && exists n :: n in required + BasePackages && Contains(p, n)
  {
    MissingMembers(BasePackages + required + optional, version);
  }

  /** A spec `name>=v` (neither part holding `>=`) looks up the stripped
      name: missing when it is not installed, or when its installed version
      is below the stripped `v` as text. */
  lemma SpecOfParts(name: string, v: string, version: string -> Option<string>)
    requires !Contains(name, ">=") && !Contains(v, ">=")
    ensures SpecMissing(name + ">=" + v, version)
         == match version(Strip(name))
            case None => Success(true)
            case Some(installed) => Success(LessThan(installed, Strip(v)))
  {
    var spec := name + ">=" + v;
    FirstGe(name, v);
    assert spec[..|name|] == name;
    assert spec[|name| + 2..] == v;
  }

  /** A spec is satisfied by exactly the version it asks for. */
  lemma ExactVersionSatisfies(name: string, v: string, version: string -> Option<string>)
    requires !Contains(name, ">=") && !Contains(v, ">=")
    requires version(Strip(name)) == Some(Strip(v))
    ensures SpecMissing(name + ">=" + v, version) == Success(false)
  {
    SpecOfParts(name, v, version);
    LessThanIrreflexive(Strip(v));
  }

  lemma {:induction false} NoGreaterSign(s: string)
    requires '>' !in s
    ensures !Contains(s, ">=")
    decreases |s|
  {
    if |s| > 0 {
      assert s[0] in s;
      assert !StartsWith(s, ">=") by {
        if |s| >= 2 {
          assert s[..2][0] == s[0];
        }
      }
      assert '>' !in s[1..];
      NoGreaterSign(s[1..]);
    }
  }

  /** The first `>=` of `name + ">=" + v` is the one between them. */
  lemma FirstGe(name: string, v: string)
    requires !Contains(name, ">=")
    ensures FindGe(name + ">=" + v) == Some(|name|)
    decreases |name|
  {
    if |name| > 0 {
      var s := name + ">=" + v;
      assert s[1..] == name[1..] + ">=" + v;
      assert !StartsWith(name, ">=");
      if |name| == 1 {
        assert s[0] == name[0] && s[1] == '>';
      } else {
        assert s[0] == name[0] && s[1] == name[1];
      }
      FirstGe(name[1..], v);
    }
  }

  /** Versions are compared as text: with version 10.0 of numpy installed,
      `numpy>=9.0` is reported missing. */
  lemma VersionsComparedAsText(version: string -> Option<string>)
    requires version("numpy") == Some("10.0")
    ensures SpecMissing("numpy" + ">=" + "9.0", version) == Success(true)
  {
    assert LessThan("10.0", "9.0");
    assert !Contains("numpy", ">=") by {
      NoGreaterSign("numpy");
    }
    assert !Contains("9.0", ">=") by {
      NoGreaterSign("9.0");
    }
    assert Strip("9.0") == "9.0" by {
      StripUnspaced("9.0");
    }
    assert Strip("numpy") == "numpy" by {
      StripUnspaced("numpy");
    }
    SpecOfParts("numpy", "9.0", version);
  }
}
