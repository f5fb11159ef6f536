/**
 * The engine endpoints the client talks to, and the trailing-slash
 * normalisation (`strings.TrimRight(url, "/")`) the current client applies.
 */
module Urls {

  const JobApi := "/external-job-api"

  /** `strings.TrimRight(s, "/")`: drops every trailing '/', and nothing else. */
  function TrimRight(s: string): (r: string)
    ensures r <= s
    ensures r == [] || r[|r| - 1] != '/'
    ensures forall i :: |r| <= i < |s| ==> s[i] == '/'
    decreases |s|
  {
    if s != [] && s[|s| - 1] == '/' then TrimRight(s[..|s| - 1]) else s
  }

  /** A string that already has no trailing '/' is left alone, so trimming twice is trimming once. */
  lemma TrimRightFixpoint(s: string)
    requires s == [] || s[|s| - 1] != '/'
    ensures TrimRight(s) == s
  {
  }

  /** Appending a '/' to a base URL never changes what it trims to. */
  lemma TrimRightSlash(s: string)
    ensures TrimRight(s + "/") == TrimRight(s)
  {
    assert (s + "/")[..|s|] == s;
  }

  /** The acquire endpoint: the base URL followed by the fixed acquire path. */
  function AcquirePath(base: string): (p: string)
    ensures base <= p && p[|base|..] == "/external-job-api/acquire/jobs"
  {
    base + JobApi + "/acquire/jobs"
  }

  /** The list endpoint: the base URL followed by the fixed list path, never the acquire URL. */
  function ListPath(base: string): (p: string)
    ensures base <= p && p[|base|..] == "/external-job-api/jobs"
    ensures p != AcquirePath(base)
  {
    base + JobApi + "/jobs"
  }

  /** A job's action endpoint: under the acquire URL, the job id, then the action as last segment. */
  function ActionPath(base: string, jobId: string, action: string): (p: string)
    ensures AcquirePath(base) + "/" + jobId + "/" <= p
    ensures |action| < |p| && p[|p| - |action|..] == action
  {
    base + JobApi + "/acquire/jobs/" + jobId + "/" + action
  }

  /** A job's action URL is the acquire URL followed by "/<jobId>/<action>". */
  lemma ActionPathExtendsAcquirePath(base: string, jobId: string, action: string)
    ensures ActionPath(base, jobId, action) == AcquirePath(base) + "/" + jobId + "/" + action
  {
  }

  /** With a trimmed base, the URL is the same whatever number of '/' the configured base ended with. */
  lemma TrimmedPathsIgnoreTrailingSlash(url: string)
    ensures AcquirePath(TrimRight(url + "/")) == AcquirePath(TrimRight(url))
    ensures ListPath(TrimRight(url + "/")) == ListPath(TrimRight(url))
  {
    TrimRightSlash(url);
  }

  /**
   * Without trimming (the legacy client) a base ending in '/' yields "//"
   * before the fixed path, where the trimmed URL has a single '/'.
   */
  lemma UntrimmedDoubleSlash(url: string)
    requires url == [] || url[|url| - 1] != '/'
    ensures AcquirePath(url + "/") == url + "//external-job-api/acquire/jobs"
    ensures AcquirePath(TrimRight(url + "/")) == AcquirePath(url)
    ensures AcquirePath(url + "/") != AcquirePath(TrimRight(url + "/"))
  {
    SlashedAcquirePath(url);
    TrimmedIsBase(url);
    SlashChangesAcquirePath(url);
  }

  lemma SlashedAcquirePath(url: string)
    ensures AcquirePath(url + "/") == url + "//external-job-api/acquire/jobs"
  {
  }

  lemma TrimmedIsBase(url: string)
    requires url == [] || url[|url| - 1] != '/'
    ensures TrimRight(url + "/") == url
  {
    TrimRightSlash(url);
  }

  lemma SlashChangesAcquirePath(url: string)
    ensures AcquirePath(url + "/") != AcquirePath(url)
  {
    assert AcquirePath(url + "/")[|url| + 1] == '/';
    assert AcquirePath(url)[|url| + 1] == 'e';
  }

  /** `x + "/" + a` determines `x` and `a` when `a` holds no '/'. */
  lemma SplitAtLastSlash(x1: string, a1: string, x2: string, a2: string)
    requires '/' !in a1 && '/' !in a2
    requires x1 + "/" + a1 == x2 + "/" + a2
    ensures x1 == x2 && a1 == a2
  {
    var s := x1 + "/" + a1;
    assert s[|s| - |a1| - 1] == '/' && s[|s| - |a2| - 1] == '/';
    assert |a1| == |a2|;
    assert a1 == s[|s| - |a1|..] == a2;
    assert x1 == s[..|x1|] == x2;
  }

  /** For a fixed base, the action URL tells which job and which slash-free action it is for. */
  lemma ActionPathInjective(base: string, id1: string, a1: string, id2: string, a2: string)
    requires '/' !in a1 && '/' !in a2
    requires ActionPath(base, id1, a1) == ActionPath(base, id2, a2)
    ensures id1 == id2 && a1 == a2
  {
    var p := base + JobApi + "/acquire/jobs/";
    SplitAtLastSlash(p + id1, a1, p + id2, a2);
    assert id1 == (p + id1)[|p|..] && id2 == (p + id2)[|p|..];
  }
}
