/** The job generator's text rules (`generate_new_job.py`): find the push URL in
    the output of `git remote show -n origin`, turn it into the project's web
    address, and normalise the project name and image reference typed in by the
    user. Running git, prompting, reading and formatting the template and
    posting the job are not modelled. */
module NewJob {
  import opened Wrappers
  import opened Strings
  import Py = Python

  datatype JobError = PushUrlNotFound

  // ---------------------------------------------------------------------------
  // Lines of the command output
  // ---------------------------------------------------------------------------

  /** The characters `str.splitlines` ends a line at (`\r\n` counts once). */
  predicate IsLineBreak(c: char) {
    c == '\n' || c == '\r' || c == '\U{0B}' || c == '\U{0C}' || '\U{1C}' <= c <= '\U{1E}'
    || c == '\U{85}' || c == '\U{2028}' || c == '\U{2029}'
  }

  predicate NoLineBreak(s: string) { forall k :: 0 <= k < |s| ==> !IsLineBreak(s[k]) }

  /** The length of the first line of `s`: the position of its first line break, or `|s|`. */
  function LineEnd(s: string): (n: nat)
    ensures n <= |s| && NoLineBreak(s[..n])
    ensures n < |s| ==> IsLineBreak(s[n])
    decreases |s|
  {
    if s == [] || IsLineBreak(s[0]) then 0
    else
      var n := LineEnd(s[1..]) + 1;
      assert s[..n] == [s[0]] + s[1..][..n - 1];
      n
  }

  /** `s.splitlines()`: the lines without their breaks; a final break starts no extra line. */
  function SplitLines(s: string): (lines: seq<string>)
    ensures forall k :: 0 <= k < |lines| ==> NoLineBreak(lines[k])
    decreases |s|
  {
    if s == [] then []
    else
      var n := LineEnd(s);
      if n == |s| then [s]
      else
        var next := if s[n] == '\r' && n + 1 < |s| && s[n + 1] == '\n' then n + 2 else n + 1;
        [s[..n]] + SplitLines(s[next..])
  }

  lemma {:induction false} LineEndOfLine(a: string, rest: string)
    requires NoLineBreak(a)
    ensures LineEnd(a + "\n" + rest) == |a|
    decreases |a|
  {
    if a != [] {
      assert (a + "\n" + rest)[1..] == a[1..] + "\n" + rest;
      LineEndOfLine(a[1..], rest);
    }
  }

  /** A line ended by `\n` is split off the front. */
  lemma SplitFirstLine(a: string, rest: string)
    requires NoLineBreak(a)
    ensures SplitLines(a + "\n" + rest) == [a] + SplitLines(rest)
  {
    var s := a + "\n" + rest;
    LineEndOfLine(a, rest);
    assert s[..|a|] == a;
    assert s[|a| + 1..] == rest;
  }

  // ---------------------------------------------------------------------------
  // parse_git_remote_show_output
  // ---------------------------------------------------------------------------

  const PushMarker: string := "Push  URL:"

  predicate IsPushLine(line: string) { PushMarker <= Py.Strip(line) }

  /** The URL a push line gives: the stripped line with the marker removed, stripped again. */
  function UrlOfLine(line: string): string {
    Py.Strip(ReplaceAll(Py.Strip(line), PushMarker, ""))
  }

  /** The URL of the first push line among `lines[i..]`. */
  function FirstPushUrl(lines: seq<string>, i: nat): (r: Result<string, JobError>)
    requires i <= |lines|
    ensures r.Ok? <==> exists k :: i <= k < |lines| && IsPushLine(lines[k])
    ensures r.Ok? ==> exists k :: i <= k < |lines| && IsPushLine(lines[k]) && r.value == UrlOfLine(lines[k])
                         && forall j :: i <= j < k ==> !IsPushLine(lines[j])
    decreases |lines| - i
  {
    if i == |lines| then Err(PushUrlNotFound)
    else if IsPushLine(lines[i]) then Ok(UrlOfLine(lines[i]))
    else FirstPushUrl(lines, i + 1)
  }

  /** The push URL of a `git remote show` output: that of the first line whose
      stripped form starts with the marker; no such line is an error. */
  function PushUrl(output: string): Result<string, JobError> {
    FirstPushUrl(SplitLines(output), 0)
  }

  /** `parse_git_remote_show_output`: the loop over the lines, returning at the first push line. */
  method ParseGitRemoteShowOutput(output: string) returns (r: Result<string, JobError>)
    ensures r == PushUrl(output)
  {
    var lines := SplitLines(output);
    var i := 0;
    while i < |lines|
      invariant 0 <= i <= |lines|
      invariant FirstPushUrl(lines, i) == FirstPushUrl(lines, 0)
    {
      var stripped := Py.Strip(lines[i]);
      if PushMarker <= stripped {
        assert FirstPushUrl(lines, i) == Ok(UrlOfLine(lines[i]));
        return Ok(Py.Strip(ReplaceAll(stripped, PushMarker, "")));
      }
      i := i + 1;
    }
    return Err(PushUrlNotFound);
  }

  /** `FirstPushUrl` reads only the lines from `i` on. */
  lemma {:induction false} FirstPushUrlShift(a: string, lines: seq<string>, i: nat)
    requires i <= |lines|
    ensures FirstPushUrl([a] + lines, i + 1) == FirstPushUrl(lines, i)
    decreases |lines| - i
  {
    if i < |lines| {
      assert ([a] + lines)[i + 1] == lines[i];
      FirstPushUrlShift(a, lines, i + 1);
    }
  }

  /** A first line that is not a push line is passed over. */
  lemma SkipLine(a: string, rest: string)
    requires NoLineBreak(a) && !IsPushLine(a)
    ensures PushUrl(a + "\n" + rest) == PushUrl(rest)
  {
    SplitFirstLine(a, rest);
    FirstPushUrlShift(a, SplitLines(rest), 0);
  }

  /** The first push line decides; nothing after it is read. */
  lemma PushLineDecides(a: string, rest: string)
    requires NoLineBreak(a) && IsPushLine(a)
    ensures PushUrl(a + "\n" + rest) == Ok(UrlOfLine(a))
  {
    SplitFirstLine(a, rest);
  }

  predicate AllSpace(s: string) { forall k :: 0 <= k < |s| ==> Py.IsSpace(s[k]) }

  /** Text trimmed of nothing at either end. */
  predicate Trimmed(s: string) { s != [] && !Py.IsSpace(s[0]) && !Py.IsSpace(s[|s| - 1]) }

  lemma {:induction false} TrimStartSpaces(indent: string, s: string)
    requires AllSpace(indent) && s != [] && !Py.IsSpace(s[0])
    ensures Py.TrimStart(indent + s) == s
    decreases |indent|
  {
    if indent == [] {
      assert indent + s == s;
    } else {
      assert (indent + s)[1..] == indent[1..] + s;
      TrimStartSpaces(indent[1..], s);
    }
  }

  /** Leading white space and any text that is itself trimmed strip to that text. */
  lemma StripIndented(indent: string, s: string)
    requires AllSpace(indent) && Trimmed(s)
    ensures Py.Strip(indent + s) == s
  {
    TrimStartSpaces(indent, s);
  }

  /** The marker, a space and a trimmed address that does not repeat the marker give that address. */
  lemma MarkedUrl(url: string)
    requires Trimmed(url) && !Contains(url, PushMarker)
    ensures Py.Strip(ReplaceAll(PushMarker + " " + url, PushMarker, "")) == url
  {
    var tail := " " + url;
    assert PushMarker + " " + url == PushMarker + tail;
    assert tail[0] != PushMarker[0] && tail[1..] == url;
    assert !Contains(tail, PushMarker);
    ReplaceAllLeading(PushMarker, tail, "");
    assert "" + tail == " " + url;
    StripIndented(" ", url);
  }

  /** A push line as git prints it, an indent, the marker and the address, gives the address. */
  lemma PushLineUrl(indent: string, url: string)
    requires AllSpace(indent) && Trimmed(url) && !Contains(url, PushMarker)
    ensures IsPushLine(indent + PushMarker + " " + url)
    ensures UrlOfLine(indent + PushMarker + " " + url) == url
  {
    var text := PushMarker + " " + url;
    assert indent + PushMarker + " " + url == indent + text;
    StripIndented(indent, text);
    MarkedUrl(url);
  }

  /** The header line `git remote show` starts with is not a push line. */
  lemma HeaderLine()
    ensures NoLineBreak("* remote origin") && !IsPushLine("* remote origin")
  {
    var l1 := "* remote origin";
    assert Py.Strip(l1) == l1 && l1[0] == '*';
  }

  /** Nor is the fetch line. */
  lemma FetchLine(indent: string, fetchUrl: string)
    requires AllSpace(indent) && NoLineBreak(indent)
    requires Trimmed(fetchUrl) && NoLineBreak(fetchUrl)
    ensures NoLineBreak(indent + "Fetch URL: " + fetchUrl) && !IsPushLine(indent + "Fetch URL: " + fetchUrl)
  {
    var fetchText := "Fetch URL: " + fetchUrl;
    var l2 := indent + fetchText;
    assert indent + "Fetch URL: " + fetchUrl == l2;
    StripIndented(indent, fetchText);
    assert fetchText[0] == 'F';
    forall k | 0 <= k < |l2| ensures !IsLineBreak(l2[k]) {
      if k >= |indent| + 11 { assert l2[k] == fetchUrl[k - |indent| - 11]; }
    }
  }

  lemma PushLineBreakFree(indent: string, pushUrl: string)
    requires NoLineBreak(indent) && NoLineBreak(pushUrl)
    ensures NoLineBreak(indent + PushMarker + " " + pushUrl)
  {
    var l3 := indent + PushMarker + " " + pushUrl;
    forall k | 0 <= k < |l3| ensures !IsLineBreak(l3[k]) {
      if k >= |indent| + 11 { assert l3[k] == pushUrl[k - |indent| - 11]; }
    }
  }

  function FetchLineOf(indent: string, url: string): string { indent + "Fetch URL: " + url }

  function PushLineOf(indent: string, url: string): string { indent + PushMarker + " " + url }

  /** The output of `git remote show -n origin` (the function's documented example, indented
      as git indents it or not): the address on the push line is returned. */
  lemma RemoteShowOutput(indent: string, fetchUrl: string, pushUrl: string, rest: string)
    requires AllSpace(indent) && NoLineBreak(indent)
    requires Trimmed(fetchUrl) && NoLineBreak(fetchUrl)
    requires Trimmed(pushUrl) && NoLineBreak(pushUrl) && !Contains(pushUrl, PushMarker)
    ensures PushUrl("* remote origin" + "\n" + (FetchLineOf(indent, fetchUrl) + "\n"
                    + (PushLineOf(indent, pushUrl) + "\n" + rest))) == Ok(pushUrl)
  {
    var l2 := FetchLineOf(indent, fetchUrl);
    var l3 := PushLineOf(indent, pushUrl);
    HeaderLine();
    SkipLine("* remote origin", l2 + "\n" + (l3 + "\n" + rest));
    FetchLine(indent, fetchUrl);
    SkipLine(l2, l3 + "\n" + rest);
    PushLineUrl(indent, pushUrl);
    PushLineBreakFree(indent, pushUrl);
    PushLineDecides(l3, rest);
  }

  // ---------------------------------------------------------------------------
  // construct_gitlab_project_url
  // ---------------------------------------------------------------------------

  predicate EndsWith(s: string, suffix: string) {
    |suffix| <= |s| && s[|s| - |suffix|..] == suffix
  }

  lemma EndsWithAppend(s: string, suffix: string, more: string)
    requires EndsWith(s, suffix)
    ensures EndsWith(s + more, suffix + more)
  {
    var t := s + more;
    assert t[|t| - |suffix + more|..] == s[|s| - |suffix|..] + more;
  }

  /** Where the lazy `(.*?)` of a match after `git@` stops: the first `:` of the line,
      if the line has one (`.` matches anything but a newline). */
  function HostEnd(s: string): (r: Option<nat>)
    ensures r.Some? ==> r.value < |s| && s[r.value] == ':' && '\n' !in s[..r.value]
    ensures r.None? ==> forall k :: 0 <= k < |s| && s[k] == ':' ==> '\n' in s[..k]
  {
    match FirstIndex(s, ':')
    case None => None
    case Some(c) =>
      match FirstIndex(s, '\n')
      case Some(n) =>
        if n < c then
          assert forall k :: 0 <= k < |s| && s[k] == ':' ==> k > n && s[..k][n] == '\n';
          None
        else Some(c)
      case None => Some(c)
  }

  /** The end of the greedy `(.*)`: the rest of the line. */
  function NewlineOrEnd(s: string): (n: nat)
    ensures n <= |s| && '\n' !in s[..n]
    ensures n < |s| ==> s[n] == '\n'
  {
    match FirstIndex(s, '\n')
    case Some(n) => n
    case None => |s|
  }

  /** `re.sub(r"git@(.*?):(.*)", r"https://\1/\2", s)`: every match, from left to right,
      becomes `https://host/path`. */
  function SubSshUrls(s: string): string
    decreases |s|
  {
    if s == [] then []
    else if "git@" <= s && HostEnd(s[4..]).Some? then
      var after := s[4..];
      var c := HostEnd(after).value;
      var path := after[c + 1..];
      var n := NewlineOrEnd(path);
      "https://" + after[..c] + "/" + path[..n] + SubSshUrls(path[n..])
    else [s[0]] + SubSshUrls(s[1..])
  }

  /** `construct_gitlab_project_url`: an SSH address rewritten to HTTPS, one `.git`
      suffix dropped, and a trailing `/` added when missing. */
  function ConstructGitlabProjectUrl(pushUrl: string): (r: string)
    ensures EndsWith(r, "/")
  {
    var https := if "git@" <= pushUrl then SubSshUrls(pushUrl) else pushUrl;
    var bare := if EndsWith(https, ".git") then https[..|https| - 4] else https;
    if EndsWith(bare, "/") then bare else bare + "/"
  }

  /** After `git@`, a host without `:` or a newline ends at the `:` that follows it. */
  lemma HostEndAt(host: string, path: string)
    requires ':' !in host && '\n' !in host
    ensures HostEnd(host + ":" + path) == Some(|host|)
  {
    var after := host + ":" + path;
    assert after[|host|] == ':';
    assert after[..|host|] == host;
  }

  /** `git@host:path` is rewritten to `https://host/path`, when the host holds no `:`. */
  lemma SshRewritten(host: string, path: string)
    requires ':' !in host && '\n' !in host && '\n' !in path
    ensures SubSshUrls("git@" + host + ":" + path) == "https://" + host + "/" + path
  {
    var s := "git@" + host + ":" + path;
    var after := host + ":" + path;
    assert s[..4] == "git@" && s[4..] == after;
    HostEndAt(host, path);
    assert after[..|host|] == host && after[|host| + 1..] == path;
    assert NewlineOrEnd(path) == |path|;
    assert path[..|path|] == path && path[|path|..] == [];
  }

  /** A line without a `:` has nothing to rewrite. */
  lemma {:induction false} SubWithoutColon(s: string)
    requires ':' !in s
    ensures SubSshUrls(s) == s
    decreases |s|
  {
    if s != [] {
      if "git@" <= s {
        assert ':' !in s[4..];
      }
      SubWithoutColon(s[1..]);
    }
  }

  /** The documented examples: the HTTPS address of a project ending in `.git` gives its
      page, with `.git` replaced by `/`. */
  lemma HttpsProjectPage(host: string, path: string)
    requires path != [] && path[|path| - 1] != '/'
    ensures ConstructGitlabProjectUrl("https://" + host + "/" + path + ".git") == "https://" + host + "/" + path + "/"
  {
    var page := "https://" + host + "/" + path;
    var u := page + ".git";
    assert "https://" + host + "/" + path + ".git" == u;
    assert u[0] == 'h';
    assert u[|u| - 4..] == ".git" && u[..|u| - 4] == page;
    assert page[|page| - 1] == path[|path| - 1];
  }

  /** ... and the SSH address of the same project gives the same page. */
  lemma SshProjectPage(host: string, path: string)
    requires ':' !in host && '\n' !in host && '\n' !in path
    requires path != [] && path[|path| - 1] != '/'
    ensures ConstructGitlabProjectUrl("git@" + host + ":" + path + ".git")
         == ConstructGitlabProjectUrl("https://" + host + "/" + path + ".git")
  {
    var s := "git@" + host + ":" + path + ".git";
    assert s == "git@" + host + ":" + (path + ".git");
    assert s[..4] == "git@";
    assert '\n' !in path + ".git";
    SshRewritten(host, path + ".git");
    var u := "https://" + host + "/" + path + ".git";
    assert "https://" + host + "/" + (path + ".git") == u;
    assert u[0] == 'h';
    SameRewrite(s, u);
  }

  /** Two addresses with the same HTTPS form give the same page. */
  lemma SameRewrite(s: string, u: string)
    requires "git@" <= s && !("git@" <= u) && SubSshUrls(s) == u
    ensures ConstructGitlabProjectUrl(s) == ConstructGitlabProjectUrl(u)
  {
  }

  lemma PrefixStartsGit(a: string, b: string)
    requires a <= b && "git@" <= a
    ensures "git@" <= b
  {
    assert b[..4] == a[..4];
  }

  /** The address up to its `.git`, and the page built from it. */
  function Bare(https: string): (b: string)
    ensures b <= https
  {
    if EndsWith(https, ".git") then https[..|https| - 4] else https
  }

  lemma ConstructSteps(pushUrl: string)
    ensures var https := if "git@" <= pushUrl then SubSshUrls(pushUrl) else pushUrl;
            var r := ConstructGitlabProjectUrl(pushUrl);
            r == Bare(https) || r == Bare(https) + "/"
  {
  }

  /** A page ending in `/` is its own page, unless it still starts with `git@` and can be rewritten. */
  lemma PageFixed(r: string)
    requires EndsWith(r, "/") && (!("git@" <= r) || ':' !in r)
    ensures ConstructGitlabProjectUrl(r) == r
  {
    if "git@" <= r {
      SubWithoutColon(r);
    }
    if |r| >= 4 {
      assert r[|r| - 4..][3] == r[|r| - 1..][0];
    }
  }

  /** Adding a `/` to text not starting with `git@` does not make it start so. */
  lemma SlashKeepsNotGit(b: string)
    requires !("git@" <= b)
    ensures !("git@" <= b + "/")
  {
    if |b| >= 4 {
      assert (b + "/")[..4] == b[..4];
    } else if |b| == 3 {
      assert (b + "/")[3] == '/';
    }
  }

  /** A rewritten one-line SSH address gives a page starting with `https`. */
  lemma SshPageIsHttps(pushUrl: string)
    requires '\n' !in pushUrl && "git@" <= pushUrl && HostEnd(pushUrl[4..]).Some?
    ensures ConstructGitlabProjectUrl(pushUrl)[0] == 'h'
  {
    var after := pushUrl[4..];
    var c := HostEnd(after).value;
    var path := after[c + 1..];
    assert '\n' !in path;
    assert NewlineOrEnd(path) == |path|;
    var https := SubSshUrls(pushUrl);
    assert https[..5] == "https";
    ConstructSteps(pushUrl);
    assert |Bare(https)| >= 5 && Bare(https)[0] == 'h';
  }

  /** An SSH address whose first line has no `:` is left as it is. */
  lemma NoColonAfterGit(pushUrl: string)
    requires "git@" <= pushUrl && '\n' !in pushUrl && HostEnd(pushUrl[4..]).None?
    ensures ':' !in pushUrl
  {
  }

  /** On a one-line address the construction is idempotent. */
  lemma ConstructIdempotent(pushUrl: string)
    requires '\n' !in pushUrl
    ensures ConstructGitlabProjectUrl(ConstructGitlabProjectUrl(pushUrl)) == ConstructGitlabProjectUrl(pushUrl)
  {
    var r := ConstructGitlabProjectUrl(pushUrl);
    ConstructSteps(pushUrl);
    if "git@" <= pushUrl && HostEnd(pushUrl[4..]).Some? {
      SshPageIsHttps(pushUrl);
      PageFixed(r);
    } else if "git@" <= pushUrl {
      NoColonAfterGit(pushUrl);
      SubWithoutColon(pushUrl);
      assert ':' !in Bare(pushUrl);
      PageFixed(r);
    } else {
      var bare := Bare(pushUrl);
      if "git@" <= bare {
        PrefixStartsGit(bare, pushUrl);
      }
      SlashKeepsNotGit(bare);
      PageFixed(r);
    }
  }

  // ---------------------------------------------------------------------------
  // The documented examples
  // ---------------------------------------------------------------------------

  const DoctestHost: string := "gitlab.onefiserv.net"
  const DoctestPath: string := "rundeck/download-link"

  /** `git@gitlab.onefiserv.net:rundeck/download-link.git`, the address in the examples. */
  function DoctestUrl(): string { "git@" + DoctestHost + ":" + DoctestPath + ".git" }

  lemma NoLineBreakAppend(a: string, b: string)
    requires NoLineBreak(a) && NoLineBreak(b)
    ensures NoLineBreak(a + b)
  {
    forall k | |a| <= k < |a + b| ensures !IsLineBreak((a + b)[k]) {
      assert (a + b)[k] == b[k - |a|];
    }
  }

  lemma DoctestUrlTrimmed()
    ensures Trimmed(DoctestUrl())
  {
    var u := DoctestUrl();
    assert u[0] == 'g' && u[|u| - 1] == 't';
  }

  lemma DoctestUrlOneLine()
    ensures NoLineBreak(DoctestUrl())
    ensures ':' !in DoctestHost && '\n' !in DoctestHost && '\n' !in DoctestPath
  {
    DoctestHostOneLine();
    DoctestPathOneLine();
    ScpAddressOneLine(DoctestHost, DoctestPath);
  }

  lemma DoctestHostOneLine()
    ensures NoLineBreak(DoctestHost) && ':' !in DoctestHost && '\n' !in DoctestHost
  {
  }

  lemma DoctestPathOneLine()
    ensures NoLineBreak(DoctestPath) && '\n' !in DoctestPath
  {
  }

  /** An scp-style address built from one-line parts is one line. */
  lemma ScpAddressOneLine(host: string, path: string)
    requires NoLineBreak(host) && NoLineBreak(path)
    ensures NoLineBreak("git@" + host + ":" + path + ".git")
  {
    NoLineBreakAppend("git@", host);
    NoLineBreakAppend("git@" + host, ":");
    NoLineBreakAppend("git@" + host + ":", path);
    NoLineBreakAppend("git@" + host + ":" + path, ".git");
  }

  lemma DoctestUrlNoMarker()
    ensures !Contains(DoctestUrl(), PushMarker)
  {
    assert 'P' !in DoctestUrl();
    NotContainsChar(DoctestUrl(), PushMarker, 'P');
  }

  lemma DoctestUrlShape()
    ensures Trimmed(DoctestUrl()) && NoLineBreak(DoctestUrl()) && !Contains(DoctestUrl(), PushMarker)
    ensures ':' !in DoctestHost && '\n' !in DoctestHost && '\n' !in DoctestPath
  {
    DoctestUrlTrimmed();
    DoctestUrlOneLine();
    DoctestUrlNoMarker();
  }

  /** The documented example of `parse_git_remote_show_output`, line by line, whatever
      lines follow the push line. */
  lemma DoctestPushUrl(rest: string)
    ensures PushUrl("* remote origin" + "\n" + (FetchLineOf("", DoctestUrl()) + "\n"
                    + (PushLineOf("", DoctestUrl()) + "\n" + rest)))
         == Ok(DoctestUrl())
  {
    DoctestUrlShape();
    RemoteShowOutput("", DoctestUrl(), DoctestUrl(), rest);
  }

  /** The two documented examples of `construct_gitlab_project_url`, the HTTPS and the SSH
      address of one project, give the same page, `https://gitlab.onefiserv.net/rundeck/download-link/`. */
  lemma DoctestProjectPages(host: string, path: string)
    requires host == DoctestHost && path == DoctestPath
    ensures ConstructGitlabProjectUrl("https://" + host + "/" + path + ".git") == "https://" + host + "/" + path + "/"
    ensures ConstructGitlabProjectUrl("git@" + host + ":" + path + ".git") == "https://" + host + "/" + path + "/"
  {
    DoctestUrlShape();
    HttpsProjectPage(host, path);
    SshProjectPage(host, path);
  }

  /** The jobs page the documented SSH address points the user to. */
  lemma DoctestJobsPage()
    ensures JobsPage(DoctestUrl()) == "https://" + DoctestHost + "/" + DoctestPath + "/-/jobs"
  {
    DoctestProjectPages(DoctestHost, DoctestPath);
    JobsPageOfProject(DoctestUrl(), "https://" + DoctestHost + "/" + DoctestPath);
  }

  /** A push address whose project page is `project/` has `project/-/jobs` as its jobs page. */
  lemma JobsPageOfProject(pushUrl: string, project: string)
    requires ConstructGitlabProjectUrl(pushUrl) == project + "/"
    ensures JobsPage(pushUrl) == project + "/-/jobs"
  {
    assert (project + "/") + "-/jobs" == project + "/-/jobs";
  }

  // ---------------------------------------------------------------------------
  // create_yaml_file: the typed-in values
  // ---------------------------------------------------------------------------

  /** The jobs page of the project the user is pointed to: its project page with `-/jobs`. */
  function JobsPage(pushUrl: string): (r: string)
    ensures r == ConstructGitlabProjectUrl(pushUrl) + "-/jobs"
    ensures EndsWith(r, "/-/jobs")
  {
    var page := ConstructGitlabProjectUrl(pushUrl);
    EndsWithAppend(page, "/", "-/jobs");
    page + "-/jobs"
  }

  /** An empty project name becomes `sandbox`; any other is kept. */
  function ProjectName(input: string): (r: string)
    ensures r != ""
    ensures input == "" ==> r == "sandbox"
    ensures input != "" ==> r == input
  {
    if input == "" then "sandbox" else input
  }

  /** An image reference holding a `-` is cut at its last `-` (dropping a dated tag);
      one without is kept. */
  function ImageRef(input: string): (r: string)
    ensures '-' !in input ==> r == input
    ensures '-' in input ==> |r| < |input| && r == input[..|r|] && input[|r|] == '-' && '-' !in input[|r| + 1..]
  {
    match LastIndex(input, '-')
    case Some(k) => input[..k]
    case None => input
  }
}
