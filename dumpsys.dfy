/** The foreground-package scan of jni/src/dumpsys.c (get_visible_package):
    a line-by-line walk over the output of "dumpsys window displays" that
    finds the topmost visible standard task and takes the package named by
    its ActivityRecord line. */
module Dumpsys {
  import opened Text

  const ZOrderMarker := "Application tokens in top down Z order:"
  const TaskTag := "* Task{"
  const StandardTag := "type=standard"
  const VisibleTag := "visible=true"
  const ActivityTag := "* ActivityRecord{"
  const UserTag := " u0 "

  /** The loop's two variables: in_task_section, and the last_task_line
      buffer, where the empty string stands for a cleared buffer. */
  datatype ScanState = ScanState(inSection: bool, lastTask: string)

  const Start := ScanState(false, "")

  /** How a scan ends: at a `break`, with what the pkg buffer then holds, or
      by running out of lines, in the given state. */
  datatype ScanResult = Stopped(pkg: string) | Exhausted(state: ScanState)

  /** A line that replaces the remembered task. */
  predicate IsStandardTask(line: string) {
    Contains(line, TaskTag) && Contains(line, StandardTag)
  }

  /** A line that reaches the ActivityRecord branch of the loop. */
  predicate IsActivity(line: string) {
    |line| > 0 && !IsStandardTask(line) && Contains(line, ActivityTag)
  }

  /** `k` is where the first " u0 " of `line` starts. */
  predicate FirstUserTag(line: string, k: int) {
    OccursAt(line, UserTag, k) && forall j :: 0 <= j < k ==> !OccursAt(line, UserTag, j)
  }

  /** The package an ActivityRecord line names: the text after its first
      " u0 " up to the next '/', cut to maxPackage - 1 characters; None when
      either separator is missing. */
  function PackageOf(line: string, maxPackage: nat): (r: Option<string>)
    requires maxPackage >= 1
    ensures r.Some? ==> |r.value| < maxPackage && '/' !in r.value
  {
    match Find(line, UserTag)
    case None => None
    case Some(k) =>
      var rest := line[k + |UserTag|..];
      match FindChar(rest, '/')
      case None => None
      case Some(j) => Some(rest[..if j >= maxPackage then maxPackage - 1 else j])
  }

  /** One pass of the loop body over one line. Outside the section only
      the Z-order marker matters; inside, the scan stops at an empty line
      or at a package of a visible task, and otherwise the remembered task
      is kept, replaced by a standard task line or cleared. */
  function Step(st: ScanState, line: string, maxPackage: nat): (r: ScanResult)
    requires maxPackage >= 1
    ensures !st.inSection ==> r == Exhausted(st.(inSection := Contains(line, ZOrderMarker)))
    ensures r.Stopped? ==> st.inSection && |r.pkg| < maxPackage && '/' !in r.pkg
    ensures r.Stopped? && r.pkg != "" ==> IsActivity(line) && Contains(st.lastTask, VisibleTag)
    ensures r.Exhausted? && st.inSection ==> r.state.inSection
    ensures r.Exhausted? && r.state.lastTask != st.lastTask ==>
              r.state.lastTask == "" || (r.state.lastTask == line && IsStandardTask(line))
  {
    if !st.inSection then
      if Contains(line, ZOrderMarker) then Exhausted(st.(inSection := true)) else Exhausted(st)
    else if |line| == 0 then Stopped("")
    else if IsStandardTask(line) then Exhausted(st.(lastTask := line))
    else if Contains(line, ActivityTag) && st.lastTask != "" then
      var pkg := PackageOf(line, maxPackage);
      if Contains(st.lastTask, VisibleTag) && pkg.Some? then Stopped(pkg.value)
      else Exhausted(st.(lastTask := ""))
    else Exhausted(st)
  }

  /** The whole loop over the given lines, from state `st`. */
  function Scan(lines: seq<string>, st: ScanState, maxPackage: nat): (r: ScanResult)
    requires maxPackage >= 1
    decreases |lines|
    ensures r.Stopped? ==> |r.pkg| < maxPackage && '/' !in r.pkg
    ensures st.inSection && r.Exhausted? ==> r.state.inSection
  {
    if lines == [] then Exhausted(st)
    else match Step(st, lines[0], maxPackage)
      case Stopped(p) => Stopped(p)
      case Exhausted(next) => Scan(lines[1..], next, maxPackage)
  }

  /** What get_visible_package returns: nothing with the screen off or when
      the dump command cannot be started, otherwise the package the scan
      stopped at, where an empty pkg buffer means none. */
  function VisiblePackage(screenOn: bool, dump: Option<seq<string>>, maxPackage: nat): (r: Option<string>)
    requires maxPackage >= 1
    ensures r.Some? ==> 0 < |r.value| < maxPackage && '/' !in r.value
  {
    if !screenOn then None
    else match dump
      case None => None
      case Some(lines) =>
        match Scan(lines, Start, maxPackage)
        case Stopped(p) => if p == "" then None else Some(p)
        case Exhausted(_) => None
  }

  /** One pass of the loop body of get_visible_package over `line`:
      `stop` is the `break`, with what the pkg buffer then holds; otherwise
      the loop variables after the pass (every `continue` included). */
  method ScanLine(inSection: bool, lastTask: string, line: string, maxPackage: nat)
    returns (stop: bool, pkg: string, nextInSection: bool, nextTask: string)
    requires maxPackage >= 1
    ensures Step(ScanState(inSection, lastTask), line, maxPackage)
         == if stop then Stopped(pkg) else Exhausted(ScanState(nextInSection, nextTask))
  {
    stop, pkg, nextInSection, nextTask := false, "", inSection, lastTask;
    if !inSection && Contains(line, ZOrderMarker) {
      nextInSection := true;
      return;
    }
    if !inSection {
      return;
    }
    if |line| == 0 {
      stop := true;
      return;
    }
    if Contains(line, TaskTag) && Contains(line, StandardTag) {
      nextTask := line;
      return;
    }
    if Contains(line, ActivityTag) && lastTask != "" {
      var visible := Contains(lastTask, VisibleTag);
      if visible {
        var u0 := Find(line, UserTag);
        if u0.Some? {
          var rest := line[u0.value + |UserTag|..];
          var slash := FindChar(rest, '/');
          if slash.Some? {
            var len := slash.value;
            if len >= maxPackage {
              len := maxPackage - 1;
            }
            pkg := rest[..len];
            stop := true;
            return;
          }
        }
      }
      nextTask := "";
    }
  }

  /** get_visible_package, with the screen state and the lines of the dump
      (None when popen fails) as inputs. */
  method GetVisiblePackage(screenOn: bool, dump: Option<seq<string>>, maxPackage: nat)
    returns (pkg: Option<string>)
    requires maxPackage >= 1
    ensures pkg == VisiblePackage(screenOn, dump, maxPackage)
  {
    if !screenOn {
      return None;
    }
    if dump.None? {
      return None;
    }
    var lines := dump.value;
    var buffer := "";
    var lastTask := "";
    var inSection := false;
    var i := 0;
    while i < |lines|
      invariant 0 <= i <= |lines|
      invariant Scan(lines, Start, maxPackage)
             == Scan(lines[i..], ScanState(inSection, lastTask), maxPackage)
    {
      assert lines[i..][0] == lines[i] && lines[i..][1..] == lines[i + 1..];
      var stop;
      stop, buffer, inSection, lastTask := ScanLine(inSection, lastTask, lines[i], maxPackage);
      i := i + 1;
      if stop {
        pkg := if buffer == "" then None else Some(buffer);
        return;
      }
    }
    pkg := None;
  }

  // ---------------------------------------------------------------------
  // Properties of the scan

  /** Goes on scanning `rest` after a partial result, unless it stopped. */
  function ScanOn(r: ScanResult, rest: seq<string>, maxPackage: nat): ScanResult
    requires maxPackage >= 1
  {
    match r
    case Stopped(_) => r
    case Exhausted(next) => Scan(rest, next, maxPackage)
  }

  /** Scanning two blocks of lines is scanning the first and, unless that
      stopped, going on with the second where the first left off. */
  lemma {:induction false} ScanAppend(a: seq<string>, b: seq<string>, st: ScanState, maxPackage: nat)
    requires maxPackage >= 1
    ensures Scan(a + b, st, maxPackage) == ScanOn(Scan(a, st, maxPackage), b, maxPackage)
  {
    if a == [] {
      assert a + b == b;
    } else {
      assert (a + b)[0] == a[0];
      assert (a + b)[1..] == a[1..] + b;
      match Step(st, a[0], maxPackage)
      case Stopped(p) =>
      case Exhausted(next) => ScanAppend(a[1..], b, next, maxPackage);
    }
  }

  /** The first match ends the scan: lines below it cannot change the
      result, so the topmost visible standard task wins. */
  lemma {:induction false} FirstMatchWins(pre: seq<string>, post: seq<string>, st: ScanState, maxPackage: nat)
    requires maxPackage >= 1
    requires Scan(pre, st, maxPackage).Stopped?
    ensures Scan(pre + post, st, maxPackage) == Scan(pre, st, maxPackage)
  {
    ScanAppend(pre, post, st, maxPackage);
  }

  /** Lines without the section marker leave the scan where it started;
      a dump that never shows the marker yields no package. */
  lemma {:induction false} NoMarkerNoPackage(lines: seq<string>, maxPackage: nat)
    requires maxPackage >= 1
    requires forall i :: 0 <= i < |lines| ==> !Contains(lines[i], ZOrderMarker)
    ensures Scan(lines, Start, maxPackage) == Exhausted(Start)
    ensures VisiblePackage(true, Some(lines), maxPackage) == None
  {
    if lines != [] {
      NoMarkerNoPackage(lines[1..], maxPackage);
    }
  }

  /** Everything above the first line holding the marker is ignored: the
      scan goes on below it with an empty remembered task. */
  lemma LinesBeforeMarkerIgnored(pre: seq<string>, marker: string, post: seq<string>, maxPackage: nat)
    requires maxPackage >= 1
    requires forall i :: 0 <= i < |pre| ==> !Contains(pre[i], ZOrderMarker)
    requires Contains(marker, ZOrderMarker)
    ensures Scan(pre + [marker] + post, Start, maxPackage) == Scan(post, ScanState(true, ""), maxPackage)
  {
    NoMarkerNoPackage(pre, maxPackage);
    assert pre + [marker] + post == pre + ([marker] + post);
    ScanAppend(pre, [marker] + post, Start, maxPackage);
    assert ([marker] + post)[1..] == post;
  }

  /** Inside the section, an empty line ends the scan: nothing below it
      matters, and it stops the scan unless a match came first. */
  lemma BlankLineEndsScan(pre: seq<string>, post: seq<string>, st: ScanState, maxPackage: nat)
    requires maxPackage >= 1
    requires st.inSection
    ensures Scan(pre + [""], st, maxPackage).Stopped?
    ensures Scan(pre + [""] + post, st, maxPackage) == Scan(pre + [""], st, maxPackage)
  {
    ScanAppend(pre, [""], st, maxPackage);
    FirstMatchWins(pre + [""], post, st, maxPackage);
  }

  /** A line holding a tag is not empty. */
  lemma TaggedLineNonEmpty(line: string, tag: string)
    requires |tag| > 0 && Contains(line, tag)
    ensures |line| > 0
  {
  }

  /** One line, then the rest. */
  lemma ScanCons(line: string, rest: seq<string>, st: ScanState, maxPackage: nat)
    requires maxPackage >= 1
    ensures Scan([line] + rest, st, maxPackage) == ScanOn(Step(st, line, maxPackage), rest, maxPackage)
  {
    assert ([line] + rest)[0] == line;
    assert ([line] + rest)[1..] == rest;
  }

  /** Inside the section, a standard Task line becomes the remembered task. */
  lemma StandardTaskRemembered(st: ScanState, task: string, maxPackage: nat)
    requires maxPackage >= 1
    requires st.inSection && IsStandardTask(task)
    ensures |task| > 0
    ensures Step(st, task, maxPackage) == Exhausted(ScanState(true, task))
  {
    TaggedLineNonEmpty(task, TaskTag);
  }

  /** Inside the section, an ActivityRecord line is paired with the
      remembered task, if there is one: a visible task with a package ends
      the scan, anything else clears the remembered task. */
  lemma ActivityStep(st: ScanState, activity: string, maxPackage: nat)
    requires maxPackage >= 1
    requires st.inSection && IsActivity(activity)
    ensures Step(st, activity, maxPackage)
         == if st.lastTask == "" then Exhausted(st)
            else if Contains(st.lastTask, VisibleTag) && PackageOf(activity, maxPackage).Some?
            then Stopped(PackageOf(activity, maxPackage).value)
            else Exhausted(ScanState(true, ""))
  {
  }

  /** A Task line that is not type=standard leaves the remembered task in
      place, so an ActivityRecord below it is still paired with the task
      above it. */
  lemma OtherTaskKeepsRemembered(st: ScanState, task: string, other: string, activity: string, maxPackage: nat)
    requires maxPackage >= 1
    requires st.inSection
    requires IsStandardTask(task) && Contains(task, VisibleTag)
    requires Contains(other, TaskTag) && !Contains(other, StandardTag)
    requires !Contains(other, ActivityTag)
    requires IsActivity(activity) && PackageOf(activity, maxPackage).Some?
    ensures Scan([task, other, activity], st, maxPackage) == Stopped(PackageOf(activity, maxPackage).value)
  {
    var m := maxPackage;
    var s1 := ScanState(true, task);
    StandardTaskRemembered(st, task, m);
    TaggedLineNonEmpty(other, TaskTag);
    assert Step(s1, other, m) == Exhausted(s1);
    ActivityStep(s1, activity, m);
    ScanCons(activity, [], s1, m);
    ScanCons(other, [activity], s1, m);
    ScanCons(task, [other, activity], st, m);
    assert [task, other, activity] == [task] + [other, activity];
    assert [other, activity] == [other] + [activity];
  }

  /** A later standard task that is not visible replaces an earlier visible
      one: the ActivityRecord below it does not leak a package, and the
      remembered task is cleared. */
  lemma InvisibleTaskDoesNotLeak(st: ScanState, visibleTask: string, hiddenTask: string, activity: string, maxPackage: nat)
    requires maxPackage >= 1
    requires st.inSection
    requires IsStandardTask(visibleTask) && Contains(visibleTask, VisibleTag)
    requires IsStandardTask(hiddenTask) && !Contains(hiddenTask, VisibleTag)
    requires IsActivity(activity)
    ensures Scan([visibleTask, hiddenTask, activity], st, maxPackage) == Exhausted(ScanState(true, ""))
  {
    var m := maxPackage;
    var empty := ScanState(true, "");
    var hidden := ScanState(true, hiddenTask);
    StandardTaskRemembered(st, visibleTask, m);
    StandardTaskRemembered(ScanState(true, visibleTask), hiddenTask, m);
    ActivityStep(hidden, activity, m);
    assert Step(hidden, activity, m) == Exhausted(empty);
    ScanCons(activity, [], hidden, m);
    assert [activity] + [] == [activity];
    assert Scan([activity], hidden, m) == Exhausted(empty);
    ScanCons(hiddenTask, [activity], ScanState(true, visibleTask), m);
    assert [hiddenTask] + [activity] == [hiddenTask, activity];
    assert Scan([hiddenTask, activity], ScanState(true, visibleTask), m) == Exhausted(empty);
    ScanCons(visibleTask, [hiddenTask, activity], st, m);
    assert [visibleTask] + [hiddenTask, activity] == [visibleTask, hiddenTask, activity];
  }

  /** An ActivityRecord that does not produce the result clears the
      remembered task, so a second ActivityRecord under the same task is
      ignored, whatever it names. */
  lemma ActivityConsumesTask(st: ScanState, task: string, first: string, second: string, maxPackage: nat)
    requires maxPackage >= 1
    requires st.inSection
    requires IsStandardTask(task)
    requires IsActivity(first) && !(Contains(task, VisibleTag) && PackageOf(first, maxPackage).Some?)
    requires IsActivity(second)
    ensures Scan([task, first, second], st, maxPackage) == Exhausted(ScanState(true, ""))
  {
    var m := maxPackage;
    StandardTaskRemembered(st, task, m);
    var empty := ScanState(true, "");
    ActivityStep(ScanState(true, task), first, m);
    assert Step(ScanState(true, task), first, m) == Exhausted(empty);
    ActivityStep(empty, second, m);
    assert Step(empty, second, m) == Exhausted(empty);
    ScanCons(second, [], empty, m);
    assert [second] + [] == [second];
    assert Scan([second], empty, m) == Exhausted(empty);
    ScanCons(first, [second], ScanState(true, task), m);
    assert [first] + [second] == [first, second];
    assert Scan([first, second], ScanState(true, task), m) == Exhausted(empty);
    ScanCons(task, [first, second], st, m);
    assert [task] + [first, second] == [task, first, second];
  }

  /** An ActivityRecord with no remembered task is skipped. */
  lemma ActivityWithoutTaskIgnored(st: ScanState, activity: string, maxPackage: nat)
    requires maxPackage >= 1
    requires st.inSection && st.lastTask == ""
    requires IsActivity(activity)
    ensures Step(st, activity, maxPackage) == Exhausted(st)
  {
  }

  /** The text of a package: it starts right after the first " u0 ", it is
      never longer than maxPackage - 1 characters, and unless it was cut it
      reaches up to the first '/' after the marker. Without a '/' there is
      no package. */
  lemma PackageOfMeaning(line: string, k: nat, maxPackage: nat)
    requires maxPackage >= 1
    requires FirstUserTag(line, k)
    ensures PackageOf(line, maxPackage).Some? <==> '/' in line[k + |UserTag|..]
    ensures PackageOf(line, maxPackage).Some? ==>
              var p := PackageOf(line, maxPackage).value;
              p <= line[k + |UserTag|..] &&
              (|p| < maxPackage - 1 ==> line[k + |UserTag| + |p|] == '/')
  {
    assert Find(line, UserTag) == Some(k);
    var rest := line[k + |UserTag|..];
    var f := FindChar(rest, '/');
    if f.None? {
      assert '/' !in rest;
    } else {
      assert rest[f.value] == '/';
    }
  }

  /** A line without " u0 " names no package. */
  lemma NoUserTagNoPackage(line: string, maxPackage: nat)
    requires maxPackage >= 1
    requires forall k :: 0 <= k < |line| ==> !OccursAt(line, UserTag, k)
    ensures PackageOf(line, maxPackage) == None
  {
  }

  /** A remembered visible task whose ActivityRecord has '/' right after
      "u0 " stops the scan with an empty package, so the whole call yields
      none even if a good match follows. */
  lemma EmptyPackageStopsScan(pre: seq<string>, activity: string, post: seq<string>, st: ScanState, k: nat, maxPackage: nat)
    requires maxPackage >= 1
    requires Scan(pre, Start, maxPackage) == Exhausted(st)
    requires st.inSection && st.lastTask != "" && Contains(st.lastTask, VisibleTag)
    requires IsActivity(activity)
    requires FirstUserTag(activity, k) && k + |UserTag| < |activity| && activity[k + |UserTag|] == '/'
    ensures VisiblePackage(true, Some(pre + [activity] + post), maxPackage) == None
  {
    PackageOfMeaning(activity, k, maxPackage);
    assert PackageOf(activity, maxPackage) == Some("");
    assert Step(st, activity, maxPackage) == Stopped("");
    assert Scan([activity] + post, st, maxPackage) == Stopped("") by {
      assert ([activity] + post)[0] == activity;
    }
    assert pre + [activity] + post == pre + ([activity] + post);
    ScanAppend(pre, [activity] + post, Start, maxPackage);
  }

  /** A remembered visible task whose ActivityRecord lacks " u0 " or a '/'
      after it yields no package: the task is dropped and the scan goes on. */
  lemma MissingSeparatorSkipsPair(st: ScanState, activity: string, maxPackage: nat)
    requires maxPackage >= 1
    requires st.inSection && st.lastTask != "" && Contains(st.lastTask, VisibleTag)
    requires IsActivity(activity)
    requires (forall k :: 0 <= k < |activity| ==> !OccursAt(activity, UserTag, k))
          || (exists k :: FirstUserTag(activity, k) && '/' !in activity[k + |UserTag|..])
    ensures Step(st, activity, maxPackage) == Exhausted(ScanState(true, ""))
  {
    if forall k :: 0 <= k < |activity| ==> !OccursAt(activity, UserTag, k) {
      NoUserTagNoPackage(activity, maxPackage);
    } else {
      var k :| FirstUserTag(activity, k) && '/' !in activity[k + |UserTag|..];
      PackageOfMeaning(activity, k, maxPackage);
    }
  }

  /** Every package the scan returns was named by an ActivityRecord line of
      the dump. */
  lemma {:induction false} ResultFromActivityLine(lines: seq<string>, st: ScanState, maxPackage: nat)
    requires maxPackage >= 1
    requires Scan(lines, st, maxPackage).Stopped? && Scan(lines, st, maxPackage).pkg != ""
    ensures exists i :: 0 <= i < |lines| && Contains(lines[i], ActivityTag)
                        && PackageOf(lines[i], maxPackage) == Some(Scan(lines, st, maxPackage).pkg)
  {
    var p := Scan(lines, st, maxPackage).pkg;
    match Step(st, lines[0], maxPackage)
    case Stopped(q) =>
      assert Contains(lines[0], ActivityTag) && PackageOf(lines[0], maxPackage) == Some(p);
    case Exhausted(next) =>
      ResultFromActivityLine(lines[1..], next, maxPackage);
      var i :| 0 <= i < |lines[1..]| && Contains(lines[1..][i], ActivityTag)
               && PackageOf(lines[1..][i], maxPackage) == Some(p);
      assert lines[i + 1] == lines[1..][i];
  }

  /** An ActivityRecord "... u0 <pkg>/<component> ..." names <pkg> when it
      fits the buffer. */
  lemma PackageOfWellFormed(head: string, pkg: string, tail: string, maxPackage: nat)
    requires maxPackage >= 1
    requires FirstUserTag(head + UserTag + pkg + "/" + tail, |head|)
    requires '/' !in pkg && |pkg| < maxPackage
    ensures PackageOf(head + UserTag + pkg + "/" + tail, maxPackage) == Some(pkg)
  {
    var activity := head + UserTag + pkg + "/" + tail;
    var k := |head|;
    PackageOfMeaning(activity, k, maxPackage);
    var rest := activity[k + |UserTag|..];
    assert rest == pkg + "/" + tail;
    assert rest[|pkg|] == '/';
    var p := PackageOf(activity, maxPackage).value;
    assert p <= rest;
    assert |p| == |pkg|;
    assert p == rest[..|p|] && rest[..|pkg|] == pkg;
  }

  /** A well-formed dump: after the marker, a visible standard task and an
      ActivityRecord "... u0 <pkg>/<component> ...". The result is exactly
      <pkg> when it fits the buffer, whatever follows. */
  lemma WellFormedDump(pre: seq<string>, marker: string, task: string, activity: string,
                       pkg: string, post: seq<string>, maxPackage: nat)
    requires maxPackage >= 1
    requires forall i :: 0 <= i < |pre| ==> !Contains(pre[i], ZOrderMarker)
    requires Contains(marker, ZOrderMarker)
    requires IsStandardTask(task) && Contains(task, VisibleTag)
    requires IsActivity(activity)
    requires exists head, tail :: activity == head + UserTag + pkg + "/" + tail
                                  && FirstUserTag(activity, |head|)
    requires '/' !in pkg && 0 < |pkg| < maxPackage
    ensures VisiblePackage(true, Some(pre + [marker, task, activity] + post), maxPackage) == Some(pkg)
  {
    var m := maxPackage;
    var head, tail :| activity == head + UserTag + pkg + "/" + tail && FirstUserTag(activity, |head|);
    PackageOfWellFormed(head, pkg, tail, m);
    var remembered := ScanState(true, task);
    StandardTaskRemembered(ScanState(true, ""), task, m);
    ActivityStep(remembered, activity, m);
    assert Step(remembered, activity, m) == Stopped(pkg);
    ScanCons(activity, post, remembered, m);
    assert Scan([activity] + post, remembered, m) == Stopped(pkg);
    ScanCons(task, [activity] + post, ScanState(true, ""), m);
    assert [task] + ([activity] + post) == [task, activity] + post;
    LinesBeforeMarkerIgnored(pre, marker, [task, activity] + post, m);
    assert pre + [marker, task, activity] + post == pre + [marker] + ([task, activity] + post);
  }
}
