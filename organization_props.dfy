/**
 * What Organize (backend/internal/downloads/organization.go) promises, proved
 * about its reference definitions: the preflight, the path template, the
 * copy and move loops, and the order of the checks.
 */
module OrganizationProps {
  import opened Strings
  import opened Organization
  import Sanitizer
  import Template
  import QBit
  import Models

  // ---------------------------------------------------------------------------
  // Preflight
  // ---------------------------------------------------------------------------

  /** Every source can be stated: it exists and is not denied. */
  predicate AllReadable(files: map<Path, Bytes>, denied: set<Path>, srcs: seq<QBit.TorrentFile>)
  {
    forall i :: 0 <= i < |srcs| ==> srcs[i].path !in denied && srcs[i].path in files
  }

  /** The total size of readable sources. */
  function TotalSize(files: map<Path, Bytes>, srcs: seq<QBit.TorrentFile>): nat
    requires forall i :: 0 <= i < |srcs| ==> srcs[i].path in files
  {
    if srcs == [] then 0 else |files[srcs[0].path]| + TotalSize(files, srcs[1..])
  }

  /** The preflight succeeds exactly when every source is readable, and then
      yields the sum of their sizes. */
  lemma {:induction false} PreflightOk(files: map<Path, Bytes>, denied: set<Path>, srcs: seq<QBit.TorrentFile>)
    ensures PreflightSpec(files, denied, srcs).Ok? <==> AllReadable(files, denied, srcs)
    ensures PreflightSpec(files, denied, srcs).Ok? ==> PreflightSpec(files, denied, srcs).value == TotalSize(files, srcs)
  {
    if srcs != [] {
      PreflightOk(files, denied, srcs[1..]);
      if AllReadable(files, denied, srcs[1..]) && srcs[0].path !in denied && srcs[0].path in files {
        forall i | 0 <= i < |srcs|
          ensures srcs[i].path !in denied && srcs[i].path in files
        {
          if i > 0 { assert srcs[i] == srcs[1..][i - 1]; }
        }
      }
      if AllReadable(files, denied, srcs) {
        forall i | 0 <= i < |srcs| - 1
          ensures srcs[1..][i].path !in denied && srcs[1..][i].path in files
        {
          assert srcs[1..][i] == srcs[i + 1];
        }
      }
    }
  }

  /** The preflight reports the first unreadable source: as inaccessible when
      stating it is refused, as missing otherwise. */
  lemma {:induction false} PreflightFirstError(files: map<Path, Bytes>, denied: set<Path>, srcs: seq<QBit.TorrentFile>, i: nat)
    requires i < |srcs| && AllReadable(files, denied, srcs[..i])
    requires srcs[i].path in denied || srcs[i].path !in files
    ensures srcs[i].path in denied ==> PreflightSpec(files, denied, srcs) == Err(SourceInaccessible(srcs[i].path))
    ensures srcs[i].path !in denied ==> PreflightSpec(files, denied, srcs) == Err(SourceMissing(srcs[i].path))
    decreases i
  {
    if i > 0 {
      var pre := srcs[..i];
      var tailPre := srcs[1..][..i - 1];
      assert pre[0] == srcs[0];
      forall j | 0 <= j < i - 1
        ensures tailPre[j].path !in denied && tailPre[j].path in files
      {
        assert tailPre[j] == pre[j + 1];
      }
      PreflightFirstError(files, denied, srcs[1..], i - 1);
    }
  }

  // ---------------------------------------------------------------------------
  // The path template
  // ---------------------------------------------------------------------------

  /** The download's series number is not a template variable: a
      "{series_number}" placeholder reaches the path unchanged. */
  lemma SeriesNumberKept(dl: Models.Download, order: seq<string>)
    requires Template.IsIterationOrder(order, TemplateVars(dl))
    ensures Template.ParseTemplate("{series_number}", TemplateVars(dl), order) == "{series_number}"
  {
    var vars := TemplateVars(dl);
    assert "series_number" !in vars;
    PlaceholderKept(vars, order);
  }

  lemma PlaceholderKept(vars: map<string, string>, order: seq<string>)
    requires forall k :: k in order ==> k in vars
    requires "series_number" !in vars && forall k :: k in vars ==> Template.BraceFree(k)
    ensures Template.ParseTemplate("{series_number}", vars, order) == "{series_number}"
  {
    PlaceholderLiteral();
    assert Template.BraceFree("series_number");
    Template.UnknownPlaceholderKept("series_number", vars, order);
  }

  lemma PlaceholderLiteral()
    ensures Template.Placeholder("series_number") == "{series_number}"
  {
  }

  /** The default template, placeholder by placeholder. */
  lemma DefaultTemplateShape()
    ensures DefaultTemplate == Template.Placeholder("author") + ("/" + (Template.Placeholder("series") + ("/" + Template.Placeholder("title"))))
  {
    var whole := Template.Placeholder("author") + ("/" + (Template.Placeholder("series") + ("/" + Template.Placeholder("title"))));
    assert |whole| == |DefaultTemplate|;
    forall i | 0 <= i < |whole|
      ensures whole[i] == DefaultTemplate[i]
    {
    }
  }

  /** Sanitising text without braces yields text without braces. */
  lemma SanitizedBraceFree(s: string)
    requires Template.BraceFree(s)
    ensures Template.BraceFree(Sanitizer.SanitizePath(s))
  {
    Sanitizer.SanitizeChars(s);
  }

  /** One "{name}" placeholder followed by more template. */
  lemma SubstituteHead(name: string, rest: string, vars: map<string, string>)
    requires Template.BraceFree(name) && name in vars
    ensures Template.Substitute(Template.Placeholder(name) + rest, vars) == vars[name] + Template.Substitute(rest, vars)
  {
    var t := Template.Placeholder(name) + rest;
    assert t[1..] == name + "}" + rest;
    assert '}' !in name;
    var r := IndexOfChar(t[1..], '}');
    assert r == Some(|name|) by {
      assert t[1..][|name|] == '}';
      assert t[1..][..|name|] == name;
    }
    assert t[|name| + 2..] == rest;
    assert t[1..|name| + 1] == name;
  }

  /** With the default template and no braces in the metadata, a download
      with a series goes to destination/author/series/title (each sanitised). */
  lemma DefaultLayout(config: map<string, string>, dl: Models.Download, order: seq<string>)
    requires KeyDestination in config && KeyTemplate !in config && dl.series != []
    requires Template.BraceFree(dl.author) && Template.BraceFree(dl.series) && Template.BraceFree(dl.title)
    requires Template.IsIterationOrder(order, TemplateVars(dl))
    ensures TargetPath(config, dl, order) ==
            Join(config[KeyDestination], Sanitizer.SanitizePath(dl.author) + "/" + Sanitizer.SanitizePath(dl.series) + "/" +
                                         Sanitizer.SanitizePath(dl.title))
  {
    SanitizedBraceFree(dl.author);
    SanitizedBraceFree(dl.series);
    SanitizedBraceFree(dl.title);
    DefaultPath(Sanitizer.SanitizePath(dl.author), Sanitizer.SanitizePath(dl.series), Sanitizer.SanitizePath(dl.title), order);
  }

  /** The default template over brace-free values. */
  lemma DefaultPath(a: string, b: string, c: string, order: seq<string>)
    requires Template.BraceFree(a) && Template.BraceFree(b) && Template.BraceFree(c)
    requires Template.IsIterationOrder(order, VarMap(a, b, c))
    ensures Template.ParseTemplate(DefaultTemplate, VarMap(a, b, c), order) == a + "/" + b + "/" + c
  {
    var vars := VarMap(a, b, c);
    assert Template.BraceFreeVars(vars);
    var t3 := Template.Placeholder("title");
    var t2 := Template.Placeholder("series") + ("/" + t3);
    var t1 := Template.Placeholder("author") + ("/" + t2);
    DefaultTemplateShape();
    FlatDefault(t1, t2, t3);
    Template.ParseTemplateIsSubstitute(DefaultTemplate, vars, order);
    SubstituteDefault(vars, t1, t2, t3);
  }

  lemma SubstituteDefault(vars: map<string, string>, t1: string, t2: string, t3: string)
    requires "author" in vars && "series" in vars && "title" in vars
    requires t3 == Template.Placeholder("title")
    requires t2 == Template.Placeholder("series") + ("/" + t3)
    requires t1 == Template.Placeholder("author") + ("/" + t2)
    ensures Template.Substitute(t1, vars) == vars["author"] + "/" + vars["series"] + "/" + vars["title"]
  {
    VarNamesBraceFree();
    SubstituteThree("author", "series", "title", vars, t1, t2, t3);
  }

  /** Three placeholders separated by slashes, whatever their names. */
  lemma SubstituteThree(n1: string, n2: string, n3: string, vars: map<string, string>, t1: string, t2: string, t3: string)
    requires Template.BraceFree(n1) && Template.BraceFree(n2) && Template.BraceFree(n3)
    requires n1 in vars && n2 in vars && n3 in vars
    requires t3 == Template.Placeholder(n3)
    requires t2 == Template.Placeholder(n2) + ("/" + t3)
    requires t1 == Template.Placeholder(n1) + ("/" + t2)
    ensures Template.Substitute(t1, vars) == vars[n1] + "/" + vars[n2] + "/" + vars[n3]
  {
    var sa, ss, st := vars[n1], vars[n2], vars[n3];
    SubstituteLast(n3, vars);
    SubstituteLevel(n2, t3, vars);
    SubstituteLevel(n1, t2, vars);
    SlashJoin(sa, ss, st);
  }

  lemma SubstituteLast(name: string, vars: map<string, string>)
    requires Template.BraceFree(name) && name in vars
    ensures Template.Substitute(Template.Placeholder(name), vars) == vars[name]
  {
    SubstituteHead(name, [], vars);
    assert Template.Placeholder(name) + [] == Template.Placeholder(name);
    assert vars[name] + [] == vars[name];
  }

  lemma SlashJoin(a: string, b: string, c: string)
    ensures a + ("/" + (b + ("/" + c))) == a + "/" + b + "/" + c
  {
  }

  lemma VarNamesBraceFree()
    ensures Template.BraceFree("author") && Template.BraceFree("series") && Template.BraceFree("title")
  {
  }

  /** A placeholder, a slash, and more template. */
  lemma SubstituteLevel(name: string, rest: string, vars: map<string, string>)
    requires Template.BraceFree(name) && name in vars
    ensures Template.Substitute(Template.Placeholder(name) + ("/" + rest), vars) ==
            vars[name] + ("/" + Template.Substitute(rest, vars))
  {
    SubstituteHead(name, "/" + rest, vars);
    Template.SubstituteCopies("/", rest, vars);
  }

  /** The default template's braces are flat. */
  lemma FlatDefault(t1: string, t2: string, t3: string)
    requires t3 == Template.Placeholder("title")
    requires t2 == Template.Placeholder("series") + ("/" + t3)
    requires t1 == Template.Placeholder("author") + ("/" + t2)
    ensures Template.FlatBraces(t1)
  {
    VarNamesBraceFree();
    FlatThree("author", "series", "title", t1, t2, t3);
  }

  lemma FlatThree(n1: string, n2: string, n3: string, t1: string, t2: string, t3: string)
    requires Template.BraceFree(n1) && Template.BraceFree(n2) && Template.BraceFree(n3)
    requires t3 == Template.Placeholder(n3)
    requires t2 == Template.Placeholder(n2) + ("/" + t3)
    requires t1 == Template.Placeholder(n1) + ("/" + t2)
    ensures Template.FlatBraces(t1)
  {
    FlatHead(n3, []);
    assert Template.Placeholder(n3) + [] == t3;
    FlatPlain("/", t3);
    FlatHead(n2, "/" + t3);
    FlatPlain("/", t2);
    FlatHead(n1, "/" + t2);
  }

  lemma FlatHead(name: string, rest: string)
    requires Template.BraceFree(name) && Template.FlatBraces(rest)
    ensures Template.FlatBraces(Template.Placeholder(name) + rest)
  {
    var t := Template.Placeholder(name) + rest;
    assert t[1..] == name + "}" + rest;
    assert '}' !in name;
    assert IndexOfChar(t[1..], '}') == Some(|name|) by {
      assert t[1..][|name|] == '}';
      assert t[1..][..|name|] == name;
    }
    assert t[|name| + 2..] == rest;
    assert t[1..|name| + 1] == name;
  }

  lemma FlatPlain(u: string, rest: string)
    requires u == "/" && Template.FlatBraces(rest)
    ensures Template.FlatBraces(u + rest)
  {
    assert (u + rest)[1..] == rest;
  }

  // ---------------------------------------------------------------------------
  // Removal, copy and move
  // ---------------------------------------------------------------------------

  /** The destinations of a plan. */
  function Dests(plan: seq<Step>): (r: seq<Path>)
    ensures |r| == |plan| && forall i :: 0 <= i < |plan| ==> r[i] == plan[i].dest
  {
    seq(|plan|, i requires 0 <= i < |plan| => plan[i].dest)
  }

  /** The sources of a plan. */
  function Srcs(plan: seq<Step>): (r: seq<Path>)
    ensures |r| == |plan| && forall i :: 0 <= i < |plan| ==> r[i] == plan[i].src
  {
    seq(|plan|, i requires 0 <= i < |plan| => plan[i].src)
  }

  predicate DistinctDests(plan: seq<Step>)
  {
    forall i, j :: 0 <= i < j < |plan| ==> plan[i].dest != plan[j].dest
  }

  predicate DestsNotSources(plan: seq<Step>)
  {
    forall i, j :: 0 <= i < |plan| && 0 <= j < |plan| ==> plan[i].dest != plan[j].src
  }

  lemma TailKeepsShape(plan: seq<Step>)
    requires plan != [] && DistinctDests(plan) && DestsNotSources(plan)
    ensures DistinctDests(plan[1..]) && DestsNotSources(plan[1..])
    ensures plan[0].dest !in Dests(plan[1..]) && plan[0].dest !in Srcs(plan[1..])
    ensures plan[0].src !in Dests(plan[1..])
  {
    var tail := plan[1..];
    forall i, j | 0 <= i < j < |tail|
      ensures tail[i].dest != tail[j].dest
    {
      assert tail[i] == plan[i + 1] && tail[j] == plan[j + 1];
    }
    forall i, j | 0 <= i < |tail| && 0 <= j < |tail|
      ensures tail[i].dest != tail[j].src
    {
      assert tail[i] == plan[i + 1] && tail[j] == plan[j + 1];
    }
  }

  /** The cleanup removes each listed path except those whose removal fails,
      and touches nothing else. */
  lemma {:induction false} RemoveAllEffect(files: map<Path, Bytes>, paths: seq<Path>, removeFails: set<Path>)
    ensures var r := RemoveAll(files, paths, removeFails);
            forall k :: (k in r <==> k in files && (k !in paths || k in removeFails)) && (k in r ==> r[k] == files[k])
    decreases |paths|
  {
    if paths != [] {
      var next := if paths[0] in removeFails then files else files - {paths[0]};
      RemoveAllEffect(next, paths[1..], removeFails);
      forall k
        ensures k in paths <==> k == paths[0] || k in paths[1..]
      {
        assert paths == [paths[0]] + paths[1..];
      }
    }
  }

  /** A copy run that succeeds leaves every destination holding its source's
      contents and changes nothing outside the destinations, when the
      destinations are distinct and none of them is a source. */
  lemma {:induction false} CopySuccess(files: map<Path, Bytes>, plan: seq<Step>, copied: seq<Path>, faults: Faults)
    requires CopyAll(files, plan, copied, faults).err.None?
    requires DistinctDests(plan) && DestsNotSources(plan)
    ensures var r := CopyAll(files, plan, copied, faults).files;
            (forall i :: 0 <= i < |plan| ==>
               plan[i].src in files && plan[i].dest in r && r[plan[i].dest] == files[plan[i].src]) &&
            (forall k :: k !in Dests(plan) ==> (k in r <==> k in files) && (k in r ==> r[k] == files[k]))
    decreases |plan|
  {
    if plan != [] {
      var s := plan[0];
      var next := files[s.dest := files[s.src]];
      assert s.dest != s.src;
      assert files[s.dest := []][s.dest := files[s.src]] == next;
      assert CopyOne(files, s.src, s.dest, faults.copyFaults) == (next, None);
      TailKeepsShape(plan);
      CopySuccess(next, plan[1..], copied + [s.dest], faults);
      var r := CopyAll(files, plan, copied, faults).files;
      assert r == CopyAll(next, plan[1..], copied + [s.dest], faults).files;
      forall i | 0 <= i < |plan|
        ensures plan[i].src in files && plan[i].dest in r && r[plan[i].dest] == files[plan[i].src]
      {
        if i > 0 {
          assert plan[1..][i - 1] == plan[i];
          assert plan[i].src != s.dest;
        }
      }
      forall k | k !in Dests(plan)
        ensures (k in r <==> k in files) && (k in r ==> r[k] == files[k])
      {
        assert k != Dests(plan)[0];
      }
    }
  }

  /** Agreement of two file maps everywhere except at one path. */
  ghost predicate AgreeExcept(a: map<Path, Bytes>, b: map<Path, Bytes>, x: Path)
  {
    forall k :: k != x ==> (k in a <==> k in b) && (k in a ==> a[k] == b[k])
  }

  /** The failing destination of a transfer error. */
  function FailedDest(e: OrgError): Path
  {
    match e
    case CopyFailed(_, _, dest, _) => dest
    case MoveFailed(_, _, dest) => dest
    case _ => []
  }

  /** The copy loop's rollback, generalised over the files already copied. */
  lemma {:induction false} CopyRollbackFrom(files0: map<Path, Bytes>, files: map<Path, Bytes>, plan: seq<Step>,
                                            copied: seq<Path>, faults: Faults)
    requires CopyAll(files, plan, copied, faults).err.Some?
    requires forall k :: k in files <==> k in files0 || k in copied
    requires forall k :: k in files0 ==> k in files && files[k] == files0[k]
    requires forall k :: k in copied ==> k !in files0 && k !in faults.removeFails
    requires forall i :: 0 <= i < |plan| ==> plan[i].dest !in files0 && plan[i].dest !in faults.removeFails && plan[i].dest !in copied
    requires DistinctDests(plan)
    ensures var t := CopyAll(files, plan, copied, faults);
            t.err.value.CopyFailed? && t.err.value.dest !in files0 && AgreeExcept(t.files, files0, t.err.value.dest)
    decreases |plan|
  {
    var s := plan[0];
    var (next, fault) := CopyOne(files, s.src, s.dest, faults.copyFaults);
    assert forall k :: k != s.dest ==> (k in next <==> k in files) && (k in next ==> next[k] == files[k]);
    if fault.Some? {
      RemoveAllEffect(next, copied, faults.removeFails);
    } else {
      forall i | 0 <= i < |plan| - 1
        ensures plan[1..][i].dest !in files0 && plan[1..][i].dest !in faults.removeFails && plan[1..][i].dest !in copied + [s.dest]
      {
        assert plan[1..][i] == plan[i + 1];
      }
      forall i, j | 0 <= i < j < |plan| - 1
        ensures plan[1..][i].dest != plan[1..][j].dest
      {
        assert plan[1..][i] == plan[i + 1] && plan[1..][j] == plan[j + 1];
      }
      CopyRollbackFrom(files0, next, plan[1..], copied + [s.dest], faults);
    }
  }

  /** A failed copy run removes every file it had copied: the filesystem is as
      before except at the destination that failed, which keeps whatever was
      written to it. This holds when the destinations are distinct, absent
      beforehand, and removable. */
  lemma CopyRollback(files: map<Path, Bytes>, plan: seq<Step>, faults: Faults)
    requires CopyAll(files, plan, [], faults).err.Some?
    requires DistinctDests(plan)
    requires forall i :: 0 <= i < |plan| ==> plan[i].dest !in files && plan[i].dest !in faults.removeFails
    ensures var t := CopyAll(files, plan, [], faults);
            t.err.value.CopyFailed? && t.err.value.dest !in files &&
            AgreeExcept(t.files, files, t.err.value.dest)
  {
    CopyRollbackFrom(files, files, plan, [], faults);
  }

  /** A failure that occurs before anything is written leaves the filesystem
      exactly as it was. */
  lemma CopyRollbackClean(files: map<Path, Bytes>, plan: seq<Step>, faults: Faults)
    requires CopyAll(files, plan, [], faults).err.Some?
    requires DistinctDests(plan)
    requires forall i :: 0 <= i < |plan| ==> plan[i].dest !in files && plan[i].dest !in faults.removeFails
    requires var e := CopyAll(files, plan, [], faults).err.value; e.CopyFailed? && (e.fault.OpenFails? || e.fault.CreateFails?)
    ensures CopyAll(files, plan, [], faults).files == files
  {
    CleanFrom(files, files, plan, [], faults);
  }

  /** A file copied onto itself: the create truncates it before the copy reads
      it, so the file is left empty while the copy reports success. */
  lemma CopyOntoItself(files: map<Path, Bytes>, p: Path, faults: map<Path, CopyFault>)
    requires p in files && p !in faults
    ensures CopyOne(files, p, p, faults) == (files[p := []], None)
  {
    var created := files[p := []];
    assert created[p := created[p]] == created;
  }

  lemma {:induction false} CleanFrom(files0: map<Path, Bytes>, files: map<Path, Bytes>, plan: seq<Step>,
                                     copied: seq<Path>, faults: Faults)
    requires CopyAll(files, plan, copied, faults).err.Some?
    requires forall k :: k in files <==> k in files0 || k in copied
    requires forall k :: k in files0 ==> k in files && files[k] == files0[k]
    requires forall k :: k in copied ==> k !in files0 && k !in faults.removeFails
    requires forall i :: 0 <= i < |plan| ==> plan[i].dest !in files0 && plan[i].dest !in faults.removeFails && plan[i].dest !in copied
    requires DistinctDests(plan)
    requires var e := CopyAll(files, plan, copied, faults).err.value; e.CopyFailed? && (e.fault.OpenFails? || e.fault.CreateFails?)
    ensures CopyAll(files, plan, copied, faults).files == files0
    decreases |plan|
  {
    var s := plan[0];
    var (next, fault) := CopyOne(files, s.src, s.dest, faults.copyFaults);
    if fault.Some? {
      assert next == files;
      RemoveAllEffect(next, copied, faults.removeFails);
      var r := RemoveAll(next, copied, faults.removeFails);
      assert r.Keys == files0.Keys;
    } else {
      forall i | 0 <= i < |plan| - 1
        ensures plan[1..][i].dest !in files0 && plan[1..][i].dest !in faults.removeFails && plan[1..][i].dest !in copied + [s.dest]
      {
        assert plan[1..][i] == plan[i + 1];
      }
      forall i, j | 0 <= i < j < |plan| - 1
        ensures plan[1..][i].dest != plan[1..][j].dest
      {
        assert plan[1..][i] == plan[i + 1] && plan[1..][j] == plan[j + 1];
      }
      CleanFrom(files0, next, plan[1..], copied + [s.dest], faults);
    }
  }

  /** Moving a plan in two parts is moving the first part and, if it
      succeeded, the second from where it left off. */
  lemma {:induction false} MoveCompose(files: map<Path, Bytes>, p: seq<Step>, q: seq<Step>, renameFails: set<Path>)
    ensures MoveAll(files, p + q, renameFails) ==
            (var t := MoveAll(files, p, renameFails); if t.err.None? then MoveAll(t.files, q, renameFails) else t)
    decreases |p|
  {
    if p == [] {
      assert p + q == q;
    } else {
      assert (p + q)[0] == p[0];
      assert (p + q)[1..] == p[1..] + q;
      var s := p[0];
      if !(s.src !in files || s.src in renameFails) {
        MoveCompose(Moved(files, s.src, s.dest), p[1..], q, renameFails);
      }
    }
  }

  /** A move that fails keeps the moves made before it: nothing is rolled back. */
  lemma MoveNoRollback(files: map<Path, Bytes>, plan: seq<Step>, k: nat, renameFails: set<Path>)
    requires k < |plan|
    requires MoveAll(files, plan[..k], renameFails).err.None?
    requires var f := MoveAll(files, plan[..k], renameFails).files;
             plan[k].src !in f || plan[k].src in renameFails
    ensures MoveAll(files, plan, renameFails) ==
            Transfer(MoveAll(files, plan[..k], renameFails).files, Some(MoveFailed(plan[k].name, plan[k].src, plan[k].dest)))
  {
    assert plan == plan[..k] + plan[k..];
    MoveCompose(files, plan[..k], plan[k..], renameFails);
    assert plan[k..][0] == plan[k];
  }

  /** A move run, finished or stopped, leaves every path that is neither a
      destination nor a source of the plan as it was. */
  lemma {:induction false} MoveKeepsOthers(files: map<Path, Bytes>, plan: seq<Step>, renameFails: set<Path>, k: Path)
    requires k !in Dests(plan) && k !in Srcs(plan)
    ensures var r := MoveAll(files, plan, renameFails).files;
            (k in r <==> k in files) && (k in r ==> r[k] == files[k])
    decreases |plan|
  {
    if plan != [] {
      var s := plan[0];
      assert k != Dests(plan)[0] && k != Srcs(plan)[0];
      if s.src in files && s.src !in renameFails {
        var next := Moved(files, s.src, s.dest);
        MoveKeepsOthers(next, plan[1..], renameFails, k);
      }
    }
  }

  /** A move run that succeeds leaves every destination holding its source's
      former contents and no source behind, when the destinations are distinct
      and none of them is a source. */
  lemma {:induction false} MovePlaces(files: map<Path, Bytes>, plan: seq<Step>, renameFails: set<Path>)
    requires MoveAll(files, plan, renameFails).err.None?
    requires DistinctDests(plan) && DestsNotSources(plan)
    ensures var r := MoveAll(files, plan, renameFails).files;
            forall i :: 0 <= i < |plan| ==>
              plan[i].src in files && plan[i].dest in r && r[plan[i].dest] == files[plan[i].src] && plan[i].src !in r
    decreases |plan|
  {
    if plan != [] {
      var s := plan[0];
      var next := Moved(files, s.src, s.dest);
      var tail := plan[1..];
      TailKeepsShape(plan);
      MovePlaces(next, tail, renameFails);
      var r := MoveAll(files, plan, renameFails).files;
      assert r == MoveAll(next, tail, renameFails).files;
      MoveKeepsOthers(next, tail, renameFails, s.dest);
      MoveKeepsOthers(next, tail, renameFails, s.src);
      forall i | 0 < i < |plan|
        ensures plan[i].src in files && plan[i].dest in r && r[plan[i].dest] == files[plan[i].src] && plan[i].src !in r
      {
        assert tail[i - 1] == plan[i];
        assert plan[i].src != s.dest;
      }
    }
  }

  /** Both halves together: the destinations hold the sources' former
      contents, no source is left, and everything else is untouched. */
  lemma MoveSuccess(files: map<Path, Bytes>, plan: seq<Step>, renameFails: set<Path>)
    requires MoveAll(files, plan, renameFails).err.None?
    requires DistinctDests(plan) && DestsNotSources(plan)
    ensures var r := MoveAll(files, plan, renameFails).files;
            (forall i :: 0 <= i < |plan| ==>
               plan[i].src in files && plan[i].dest in r && r[plan[i].dest] == files[plan[i].src] && plan[i].src !in r) &&
            (forall k :: k !in Dests(plan) && k !in Srcs(plan) ==> (k in r <==> k in files) && (k in r ==> r[k] == files[k]))
  {
    MovePlaces(files, plan, renameFails);
    forall k | k !in Dests(plan) && k !in Srcs(plan)
      ensures var r := MoveAll(files, plan, renameFails).files;
              (k in r <==> k in files) && (k in r ==> r[k] == files[k])
    {
      MoveKeepsOthers(files, plan, renameFails, k);
    }
  }

  // ---------------------------------------------------------------------------
  // Organize as a whole
  // ---------------------------------------------------------------------------

  /** The transfer loops fail only with their own kind of error. */
  lemma {:induction false} TransferErrorKinds(files: map<Path, Bytes>, plan: seq<Step>, copied: seq<Path>, faults: Faults)
    ensures MoveAll(files, plan, faults.renameFails).err.Some? ==> MoveAll(files, plan, faults.renameFails).err.value.MoveFailed?
    ensures CopyAll(files, plan, copied, faults).err.Some? ==> CopyAll(files, plan, copied, faults).err.value.CopyFailed?
    decreases |plan|
  {
    if plan != [] {
      var s := plan[0];
      var (next, _) := CopyOne(files, s.src, s.dest, faults.copyFaults);
      TransferErrorKinds(next, plan[1..], copied + [s.dest], faults);
      if s.src in files {
        TransferErrorKinds(Moved(files, s.src, s.dest), plan[1..], copied, faults);
      }
    }
  }

  /** The checks after the manifest: a failing check changes nothing; success
      means every source was readable, the space sufficed, and the target
      directory exists. */
  lemma PlaceChecks(files: map<Path, Bytes>, dirs: set<Path>, faults: Faults, base: Path, target: Path,
                    srcs: seq<QBit.TorrentFile>, operation: string)
    ensures var p := PlaceSpec(files, dirs, faults, base, target, srcs, operation);
            p.err.Some? && !p.err.value.MoveFailed? && !p.err.value.CopyFailed? ==> p.files == files && p.dirs == dirs
    ensures var p := PlaceSpec(files, dirs, faults, base, target, srcs, operation);
            p.err.None? ==>
              AllReadable(files, faults.denied, srcs) && base in faults.freeSpace &&
              faults.freeSpace[base] >= RequiredSpace(TotalSize(files, srcs)) && p.dirs == dirs + {target}
  {
    PreflightOk(files, faults.denied, srcs);
    var plan := Plan(srcs, target);
    TransferErrorKinds(files, plan, [], faults);
    match PreflightSpec(files, faults.denied, srcs)
    case Err(_) =>
    case Ok(total) =>
      if base in faults.freeSpace && faults.freeSpace[base] >= RequiredSpace(total) && target !in faults.mkdirFails {
        var t := if operation == "move" then MoveAll(files, plan, faults.renameFails) else CopyAll(files, plan, [], faults);
        assert PlaceSpec(files, dirs, faults, base, target, srcs, operation) == Placed(t.err, t.files, dirs + {target});
      }
  }

  /** Every failure before the transfer loop leaves the files untouched, and
      creates at most the destination base directory. */
  lemma ChecksChangeNoFile(files: map<Path, Bytes>, dirs: set<Path>, faults: Faults, config: map<string, string>,
                           dl: Models.Download, manifest: Option<seq<QBit.TorrentFile>>, order: seq<string>)
    requires Template.IsIterationOrder(order, TemplateVars(dl))
    ensures var o := OrganizeSpec(files, dirs, faults, config, dl, manifest, order);
            o.result.Err? && !o.result.error.MoveFailed? && !o.result.error.CopyFailed? ==>
              o.files == files && (KeyDestination in config ==> o.dirs <= dirs + {config[KeyDestination]})
  {
    if KeyDestination in config && config[KeyDestination] !in faults.mkdirFails && manifest.Some? {
      var base := config[KeyDestination];
      OrganizePlaces(files, dirs, faults, config, dl, manifest, order);
      PlaceChecks(files, dirs + {base}, faults, base, TargetPath(config, dl, order),
                  Remapped(manifest.value, Lookup(config, KeyLocalMount, "")), Lookup(config, KeyOperation, DefaultOperation));
    }
  }

  /** Organize succeeds only when the destination is configured, the manifest
      was fetched, every source is readable, the free space at the destination
      covers the total plus ten per cent, and the target directory was created;
      the download then records the target as its organized path. */
  lemma SuccessConditions(files: map<Path, Bytes>, dirs: set<Path>, faults: Faults, config: map<string, string>,
                          dl: Models.Download, manifest: Option<seq<QBit.TorrentFile>>, order: seq<string>)
    requires Template.IsIterationOrder(order, TemplateVars(dl))
    requires OrganizeSpec(files, dirs, faults, config, dl, manifest, order).result.Ok?
    ensures KeyDestination in config && manifest.Some?
    ensures var base := config[KeyDestination];
            var srcs := Remapped(manifest.value, Lookup(config, KeyLocalMount, ""));
            var o := OrganizeSpec(files, dirs, faults, config, dl, manifest, order);
            AllReadable(files, faults.denied, srcs) && base in faults.freeSpace &&
            faults.freeSpace[base] >= RequiredSpace(TotalSize(files, srcs)) &&
            base in o.dirs && TargetPath(config, dl, order) in o.dirs &&
            o.result.value == dl.(organizedPath := TargetPath(config, dl, order))
  {
    var base := config[KeyDestination];
    OrganizePlaces(files, dirs, faults, config, dl, manifest, order);
    PlaceChecks(files, dirs + {base}, faults, base, TargetPath(config, dl, order),
                Remapped(manifest.value, Lookup(config, KeyLocalMount, "")), Lookup(config, KeyOperation, DefaultOperation));
  }

  /** With every source readable, free space below the total plus ten per cent
      stops Organize with the two amounts, before any directory for the
      download is created or any file is touched. */
  lemma InsufficientSpaceStops(files: map<Path, Bytes>, dirs: set<Path>, faults: Faults, config: map<string, string>,
                               dl: Models.Download, manifest: seq<QBit.TorrentFile>, order: seq<string>)
    requires Template.IsIterationOrder(order, TemplateVars(dl))
    requires KeyDestination in config && config[KeyDestination] !in faults.mkdirFails
    requires var srcs := Remapped(manifest, Lookup(config, KeyLocalMount, ""));
             AllReadable(files, faults.denied, srcs) && config[KeyDestination] in faults.freeSpace &&
             faults.freeSpace[config[KeyDestination]] < RequiredSpace(TotalSize(files, srcs))
    ensures var base := config[KeyDestination];
            var srcs := Remapped(manifest, Lookup(config, KeyLocalMount, ""));
            OrganizeSpec(files, dirs, faults, config, dl, Some(manifest), order) ==
            Outcome(Err(InsufficientSpace(RequiredSpace(TotalSize(files, srcs)), faults.freeSpace[base])), files, dirs + {base})
  {
    var base := config[KeyDestination];
    var srcs := Remapped(manifest, Lookup(config, KeyLocalMount, ""));
    OrganizePlaces(files, dirs, faults, config, dl, Some(manifest), order);
    PreflightOk(files, faults.denied, srcs);
    PlaceSpaceShort(files, dirs + {base}, faults, base, TargetPath(config, dl, order), srcs,
                    Lookup(config, KeyOperation, DefaultOperation), TotalSize(files, srcs));
  }

  /** Past the destination and the manifest, Organize is the checks and the transfer. */
  lemma OrganizePlaces(files: map<Path, Bytes>, dirs: set<Path>, faults: Faults, config: map<string, string>,
                       dl: Models.Download, manifest: Option<seq<QBit.TorrentFile>>, order: seq<string>)
    requires Template.IsIterationOrder(order, TemplateVars(dl))
    requires KeyDestination in config && config[KeyDestination] !in faults.mkdirFails && manifest.Some?
    ensures var target := TargetPath(config, dl, order);
            var p := PlaceSpec(files, dirs + {config[KeyDestination]}, faults, config[KeyDestination], target,
                               Remapped(manifest.value, Lookup(config, KeyLocalMount, "")),
                               Lookup(config, KeyOperation, DefaultOperation));
            OrganizeSpec(files, dirs, faults, config, dl, manifest, order) ==
            Outcome(if p.err.None? then Ok(dl.(organizedPath := target)) else Err(p.err.value), p.files, p.dirs)
  {
  }

  /** Readable sources whose total plus ten per cent exceeds the free space
      stop the placement with the two amounts. */
  lemma PlaceSpaceShort(files: map<Path, Bytes>, dirs: set<Path>, faults: Faults, base: Path, target: Path,
                        srcs: seq<QBit.TorrentFile>, operation: string, total: nat)
    requires PreflightSpec(files, faults.denied, srcs) == Ok(total)
    requires base in faults.freeSpace && faults.freeSpace[base] < RequiredSpace(total)
    ensures PlaceSpec(files, dirs, faults, base, target, srcs, operation) ==
            Placed(Some(InsufficientSpace(RequiredSpace(total), faults.freeSpace[base])), files, dirs)
  {
  }

  /** An unreadable source stops Organize before the space check and before the
      target directory is created. */
  lemma UnreadableSourceStops(files: map<Path, Bytes>, dirs: set<Path>, faults: Faults, config: map<string, string>,
                              dl: Models.Download, manifest: seq<QBit.TorrentFile>, order: seq<string>)
    requires Template.IsIterationOrder(order, TemplateVars(dl))
    requires KeyDestination in config && config[KeyDestination] !in faults.mkdirFails
    requires !AllReadable(files, faults.denied, Remapped(manifest, Lookup(config, KeyLocalMount, "")))
    ensures var o := OrganizeSpec(files, dirs, faults, config, dl, Some(manifest), order);
            o.files == files && o.dirs == dirs + {config[KeyDestination]} &&
            o.result.Err? && (o.result.error.SourceMissing? || o.result.error.SourceInaccessible?)
  {
    var srcs := Remapped(manifest, Lookup(config, KeyLocalMount, ""));
    OrganizePlaces(files, dirs, faults, config, dl, Some(manifest), order);
    PreflightOk(files, faults.denied, srcs);
    match PreflightSpec(files, faults.denied, srcs)
    case Err(e) =>
      PreflightErrorKind(files, faults.denied, srcs);
    case Ok(_) =>
  }

  lemma {:induction false} PreflightErrorKind(files: map<Path, Bytes>, denied: set<Path>, srcs: seq<QBit.TorrentFile>)
    ensures PreflightSpec(files, denied, srcs).Err? ==>
              PreflightSpec(files, denied, srcs).error.SourceMissing? || PreflightSpec(files, denied, srcs).error.SourceInaccessible?
  {
    if srcs != [] {
      PreflightErrorKind(files, denied, srcs[1..]);
    }
  }
}
