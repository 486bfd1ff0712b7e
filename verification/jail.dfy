/** Host paths in the staging directory and their names inside the jail
    (app.py lines 11, 15-18 and 22-23). The jail mounts the host directory
    `/tmp/nsjail` as its own `/tmp`, and `run_script` translates a host path
    with `str.replace`. */
module Jail {
  import opened Text

  type Path = string

  /** The staging directory on the host. */
  const NsjailTmp: Path := "/tmp/nsjail"
  /** The same directory as the jailed program sees it. */
  const JailTmp: Path := "/tmp"

  /** A path component without a separator: a temporary file's random token
      or suffix (the standard library draws tokens from letters, digits and `_`). */
  predicate NoSlash(s: string) {
    forall i | 0 <= i < |s| :: s[i] != '/'
  }

  /** The name `tempfile.NamedTemporaryFile(suffix=..., dir=NsjailTmp)` gives:
      the directory, a separator, the prefix `tmp`, the random token, the suffix. */
  function TempPath(token: string, suffix: string): Path {
    NsjailTmp + "/tmp" + token + suffix
  }

  /** app.py line 22-23: `path.replace(nsjail_tmp, "/tmp")`. A path outside
      the staging directory is left alone; a path directly below it, whose
      remaining name holds no further `/tmp/nsjail`, has that prefix
      rewritten to `/tmp`. */
  function JailPath(hostPath: Path): (r: Path)
    ensures !Contains(hostPath, NsjailTmp) ==> r == hostPath
    ensures |hostPath| >= |NsjailTmp| && hostPath[..|NsjailTmp|] == NsjailTmp
            && !Contains(hostPath[|NsjailTmp|..], NsjailTmp)
            ==> r == JailTmp + hostPath[|NsjailTmp|..]
  {
    if |hostPath| >= |NsjailTmp| && hostPath[..|NsjailTmp|] == NsjailTmp then
      var name := hostPath[|NsjailTmp|..];
      assert hostPath == NsjailTmp + name;
      ReplaceLeading(NsjailTmp, name, JailTmp);
      Replace(hostPath, NsjailTmp, JailTmp)
    else
      Replace(hostPath, NsjailTmp, JailTmp)
  }

  /** The jail's mount read backwards: a path under the jail's `/tmp` names
      the same file under the host's staging directory. */
  function HostPath(jailPath: Path): Path {
    if jailPath == JailTmp || (|jailPath| > |JailTmp| && jailPath[..|JailTmp| + 1] == JailTmp + "/")
    then NsjailTmp + jailPath[|JailTmp|..]
    else jailPath
  }

  /** A name with a single separator, at its start, cannot contain the
      two-separator string `/tmp/nsjail`. */
  lemma NoStagingInName(x: string)
    requires NoSlash(x)
    ensures !Contains("/tmp" + x, NsjailTmp)
  {
    var name := "/tmp" + x;
    forall i: nat | i <= |name| ensures !OccursAt(name, NsjailTmp, i) {
      if i + |NsjailTmp| <= |name| {
        assert name[i..i + |NsjailTmp|][4] == name[i + 4] == x[i];
      }
    }
  }

  /** Prefix rewriting: a host path `/tmp/nsjail + name`, where `name` holds no
      further `/tmp/nsjail`, becomes `/tmp + name` in the jail. */
  lemma RemapStaged(name: string)
    requires !Contains(name, NsjailTmp)
    ensures JailPath(NsjailTmp + name) == JailTmp + name
  {
    assert (NsjailTmp + name)[|NsjailTmp|..] == name;
  }

  /** A temporary file `/tmp/nsjail/tmp<token><suffix>` is `/tmp/tmp<token><suffix>`
      inside the jail. */
  lemma TempPathInJail(token: string, suffix: string)
    requires NoSlash(token) && NoSlash(suffix)
    ensures JailPath(TempPath(token, suffix)) == JailTmp + "/tmp" + token + suffix
  {
    assert NoSlash(token + suffix);
    NoStagingInName(token + suffix);
    assert TempPath(token, suffix) == NsjailTmp + ("/tmp" + (token + suffix));
    RemapStaged("/tmp" + (token + suffix));
  }

  /** The remapping is undone by the jail's mount, so it is a bijection on the
      paths the runner allocates. */
  lemma RemapRoundTrip(token: string, suffix: string)
    requires NoSlash(token) && NoSlash(suffix)
    ensures HostPath(JailPath(TempPath(token, suffix))) == TempPath(token, suffix)
  {
    TempPathInJail(token, suffix);
    var j := JailTmp + "/tmp" + token + suffix;
    assert j[..|JailTmp| + 1] == JailTmp + "/";
    assert j[|JailTmp|..] == "/tmp" + token + suffix;
  }

  /** Two allocated paths with the same jail name are the same host path. */
  lemma RemapInjective(t1: string, s1: string, t2: string, s2: string)
    requires NoSlash(t1) && NoSlash(s1) && NoSlash(t2) && NoSlash(s2)
    requires JailPath(TempPath(t1, s1)) == JailPath(TempPath(t2, s2))
    ensures TempPath(t1, s1) == TempPath(t2, s2)
  {
    RemapRoundTrip(t1, s1);
    RemapRoundTrip(t2, s2);
  }
}
