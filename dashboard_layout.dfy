/**
 * The dashboard shell shared by the three roles: the base path of each
 * role, the normalised link target of each navigation item, which item is
 * highlighted, and the colour theme.
 */
module DashboardLayout {
  const PatientType := "patient"
  const HealthWorkerType := "health-worker"
  const DoctorType := "doctor"

  datatype Theme = Blue | Teal | Green

  predicate KnownUserType(userType: string)
  {
    userType == PatientType || userType == HealthWorkerType || userType == DoctorType
  }

  /** getBasePath: the role's prefix, or '/' for any other user type. */
  function BasePath(userType: string): (r: string)
    ensures KnownUserType(userType) ==> |r| > 1 && r[0] == '/' && r[|r| - 1] != '/'
    ensures !KnownUserType(userType) ==> r == "/"
  {
    if userType == PatientType then "/patient"
    else if userType == HealthWorkerType then "/health-worker"
    else if userType == DoctorType then "/doctor"
    else "/"
  }

  /** `s.replace(/\/+$/, '')`: every trailing '/' removed. */
  function StripTrailingSlashes(s: string): (r: string)
    ensures r <= s
    ensures r == "" || r[|r| - 1] != '/'
    ensures forall k :: |r| <= k < |s| ==> s[k] == '/'
    decreases |s|
  {
    if |s| > 0 && s[|s| - 1] == '/' then StripTrailingSlashes(s[..|s| - 1]) else s
  }

  /** Stripping keeps at least every character up to the last one that is not a '/'. */
  lemma StripKeepsUpTo(s: string, k: nat)
    requires 0 < k <= |s| && s[k - 1] != '/'
    ensures |StripTrailingSlashes(s)| >= k
  {
  }

  /** A trailing '/' added to the text is removed again. */
  lemma StripIgnoresExtraSlash(s: string)
    ensures StripTrailingSlashes(s + "/") == StripTrailingSlashes(s)
  {
    assert (s + "/")[..|s + "/"| - 1] == s;
  }

  /**
   * Stripping a concatenation: when the second part has something left
   * after stripping, only its slashes go; otherwise it goes entirely and
   * the first part is stripped in turn.
   */
  lemma {:induction false} StripAppend(x: string, y: string)
    ensures StripTrailingSlashes(x + y) ==
      if StripTrailingSlashes(y) == "" then StripTrailingSlashes(x) else x + StripTrailingSlashes(y)
    decreases |y|
  {
    if |y| == 0 {
      assert x + y == x;
    } else if y[|y| - 1] == '/' {
      assert (x + y)[..|x + y| - 1] == x + y[..|y| - 1];
      StripAppend(x, y[..|y| - 1]);
    } else {
      assert (x + y)[|x + y| - 1] == y[|y| - 1];
    }
  }

  /**
   * The link target of a navigation item: base, '/', item path, trailing
   * slashes stripped, else the base. Only the item path's own trailing
   * slashes go; an item path made of nothing but slashes links to the base.
   */
  function FullPath(userType: string, path: string): (r: string)
    ensures r != ""
    ensures StripTrailingSlashes(path) != "" ==> r == BasePath(userType) + "/" + StripTrailingSlashes(path)
    ensures StripTrailingSlashes(path) == "" ==> r == BasePath(userType)
  {
    var base := BasePath(userType);
    StripAppend(base + "/", path);
    StripIgnoresExtraSlash(base);
    assert KnownUserType(userType) ==> StripTrailingSlashes(base) == base;
    assert !KnownUserType(userType) ==> base == "/" && base[..0] == "";
    var stripped := StripTrailingSlashes(base + "/" + path);
    if stripped == "" then base else stripped
  }

  /** An item path that does not end in '/' is appended to the base path as it stands. */
  lemma PlainPathLink(userType: string, path: string)
    requires path != "" && path[|path| - 1] != '/'
    ensures FullPath(userType, path) == BasePath(userType) + "/" + path
  {
    assert StripTrailingSlashes(path) == path;
  }

  /** For the three roles, a link target starts with the role's base path and never ends with '/'. */
  lemma FullPathShape(userType: string, path: string)
    requires KnownUserType(userType)
    ensures BasePath(userType) <= FullPath(userType, path)
    ensures FullPath(userType, path)[|FullPath(userType, path)| - 1] != '/'
  {
    var base := BasePath(userType);
    var raw := base + "/" + path;
    assert raw[|base| - 1] == base[|base| - 1];
    StripKeepsUpTo(raw, |base|);
    var stripped := StripTrailingSlashes(raw);
    assert stripped[..|base|] == raw[..|base|] == base;
  }

  /** An item with an empty path links to exactly the base path, for every user type. */
  lemma EmptyPathIsBase(userType: string)
    ensures FullPath(userType, "") == BasePath(userType)
  {
    var base := BasePath(userType);
    var raw := base + "/" + "";
    if KnownUserType(userType) {
      assert raw[..|raw| - 1] == base;
      assert StripTrailingSlashes(raw) == StripTrailingSlashes(base);
      assert StripTrailingSlashes(base) == base;
    } else {
      assert raw == "//";
      assert raw[..|raw| - 1] == "/";
      assert "/"[..0] == "";
    }
  }

  /** Writing an item's path with a trailing '/' does not change its link target. */
  lemma TrailingSlashIgnored(userType: string, path: string)
    ensures FullPath(userType, path + "/") == FullPath(userType, path)
  {
    var base := BasePath(userType);
    assert base + "/" + (path + "/") == (base + "/" + path) + "/";
    StripIgnoresExtraSlash(base + "/" + path);
  }

  /** An item is highlighted exactly when the current location is its link target. */
  function IsActive(pathname: string, userType: string, path: string): (r: bool)
    ensures r <==> pathname == FullPath(userType, path)
    ensures r ==> pathname != ""
    ensures r && KnownUserType(userType) ==> BasePath(userType) <= pathname && pathname[|pathname| - 1] != '/'
  {
    if KnownUserType(userType) then
      FullPathShape(userType, path);
      pathname == FullPath(userType, path)
    else
      pathname == FullPath(userType, path)
  }

  /** A role's link target never ends in '/', so a location ending in '/' highlights nothing. */
  lemma SlashEndedLocationHighlightsNothing(pathname: string, userType: string, path: string)
    requires KnownUserType(userType) && |pathname| > 0 && pathname[|pathname| - 1] == '/'
    ensures !IsActive(pathname, userType, path)
  {
    FullPathShape(userType, path);
  }

  /** getThemeColors: blue for patients and for any unknown user type, teal for health workers, green for doctors. */
  function ThemeOf(userType: string): (t: Theme)
    ensures t == Teal <==> userType == HealthWorkerType
    ensures t == Green <==> userType == DoctorType
    ensures userType == PatientType || !KnownUserType(userType) ==> t == Blue
  {
    if userType == HealthWorkerType then Teal
    else if userType == DoctorType then Green
    else Blue
  }
}
