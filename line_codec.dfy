/** The markdown line format that links a document line to a remote task:
    `insertParsedTasks` writes one line per task with an embedded
    `(rtm:list:series:task)` reference, `completeTaskInEditor` finds that
    reference again with a regular expression and ticks the checkbox, and
    `addTaskFromEditor` recovers a task name from a free-form line. */
module LineCodec {
  import opened Wrappers
  import opened JsText
  import opened TaskBuilder

  const IdGlyph := "[\U{1F42E}]"
  const Unchecked := "- [ ]"
  const Checked := "- [x]"

  /** `(rtm:L:S:T)`: what the decoder looks for. */
  function RefTag(r: TaskRef): string {
    "(rtm:" + r.list + ":" + r.series + ":" + r.task + ")"
  }

  /** `[🐮](rtm:L:S:T)`: a markdown link whose target is the reference. */
  function IdTag(r: TaskRef): string {
    IdGlyph + RefTag(r)
  }

  /** One group of the pattern `[\w\d]+`. */
  predicate WordId(s: string) {
    s != [] && AllWordChars(s)
  }

  predicate WellFormed(r: TaskRef) {
    WordId(r.list) && WordId(r.series) && WordId(r.task)
  }

  // ---------------------------------------------------------------- encoder

  /** The class `[\s,.]`. */
  predicate IsSeparator(c: char) {
    IsSpace(c) || c == ',' || c == '.'
  }

  predicate NoSeparators(s: string) {
    forall i :: 0 <= i < |s| ==> !IsSeparator(s[i])
  }

  predicate AllSeparators(s: string) {
    forall i :: 0 <= i < |s| ==> IsSeparator(s[i])
  }

  /** Drops the run of separators at the start of `s`. */
  function SkipSeparators(s: string): (r: string)
    ensures |r| <= |s| && r == s[|s| - |r|..]
    ensures s != [] && IsSeparator(s[0]) ==> |r| < |s|
    ensures AllSeparators(s[..|s| - |r|])
    ensures r != [] ==> !IsSeparator(r[0])
  {
    if s != [] && IsSeparator(s[0]) then SkipSeparators(s[1..]) else s
  }

  /** `name.replace(/[\s,.]+/g, '_')`. */
  function Slug(s: string): (r: string)
    ensures NoSeparators(r)
    ensures |r| <= |s|
    ensures r == [] <==> s == []
    decreases |s|
  {
    if s == [] then []
    else if IsSeparator(s[0]) then
      var t := Slug(SkipSeparators(s));
      NoSeparatorsCons('_', t);
      "_" + t
    else
      var t := Slug(s[1..]);
      NoSeparatorsCons(s[0], t);
      [s[0]] + t
  }

  /** A name without separators is its own slug. */
  lemma {:induction false} SlugOfPlain(s: string)
    requires NoSeparators(s)
    ensures Slug(s) == s
    decreases |s|
  {
    if s != [] {
      NoSeparatorsTail(s);
      SlugOfPlain(s[1..]);
    }
  }

  lemma NoSeparatorsCons(c: char, t: string)
    requires !IsSeparator(c) && NoSeparators(t)
    ensures NoSeparators([c] + t)
  {
    forall i | 0 <= i < |[c] + t| ensures !IsSeparator(([c] + t)[i]) {
      if i > 0 {
        assert ([c] + t)[i] == t[i - 1];
      }
    }
  }

  lemma NoSeparatorsTail(s: string)
    requires s != []
    ensures s == [s[0]] + s[1..]
    ensures NoSeparators(s) ==> NoSeparators(s[1..])
  {
    if NoSeparators(s) {
      forall i | 0 <= i < |s| - 1 ensures !IsSeparator(s[1..][i]) {
        assert s[1..][i] == s[i + 1];
      }
    }
  }

  lemma {:induction false} SkipSeparatorsRun(w: string, b: string)
    requires AllSeparators(w)
    requires b == [] || !IsSeparator(b[0])
    ensures SkipSeparators(w + b) == b
  {
    if w == [] {
      assert w + b == b;
    } else {
      assert (w + b)[0] == w[0];
      assert (w + b)[1..] == w[1..] + b;
      SkipSeparatorsRun(w[1..], b);
    }
  }

  /** Each maximal run of separators becomes one `_`; other characters are kept. */
  lemma {:induction false} SlugCollapsesRun(a: string, w: string, b: string)
    requires NoSeparators(a)
    requires w != [] && AllSeparators(w)
    requires b == [] || !IsSeparator(b[0])
    ensures Slug(a + w + b) == a + "_" + Slug(b)
    decreases |a|
  {
    if a == [] {
      assert a + w + b == w + b;
      SlugOfRun(w, b);
      assert a + "_" + Slug(b) == "_" + Slug(b);
    } else {
      NoSeparatorsTail(a);
      ConsSplit(a, w, b);
      SlugKeeps(a[0], a[1..] + w + b);
      SlugCollapsesRun(a[1..], w, b);
      ConsSplit(a, "_", Slug(b));
    }
  }

  lemma ConsSplit(a: string, x: string, y: string)
    requires a != []
    ensures a + x + y == [a[0]] + (a[1..] + x + y)
  {
    assert a == [a[0]] + a[1..];
  }

  lemma SlugOfRun(w: string, b: string)
    requires w != [] && AllSeparators(w)
    requires b == [] || !IsSeparator(b[0])
    ensures Slug(w + b) == "_" + Slug(b)
  {
    assert (w + b)[0] == w[0];
    SkipSeparatorsRun(w, b);
  }

  lemma SlugKeeps(c: char, rest: string)
    requires !IsSeparator(c)
    ensures Slug([c] + rest) == [c] + Slug(rest)
  {
    assert ([c] + rest)[1..] == rest;
  }

  /** ` #` and the slug of the list name; nothing when there is no list name. */
  function ListTag(listName: string): (r: string)
    ensures r == "" <==> listName == ""
    ensures listName != "" ==> r == " #" + Slug(listName)
  {
    if listName == "" then "" else " #" + Slug(listName)
  }

  /** `tags.map(tag => " #" + tag).join("")`. */
  function TagsText(tags: seq<string>): string {
    if tags == [] then "" else " #" + tags[0] + TagsText(tags[1..])
  }

  /** The line of one task, without its line break. */
  function LineText(t: FormattedTask): string {
    Unchecked + " " + IdTag(t.rtmId) + LineRest(t)
  }

  /** What follows the reference link: the name, the markers and the tags. */
  function LineRest(t: FormattedTask): string {
    " " + t.name + t.priority + t.due + ListTag(t.listName) + TagsText(t.tags)
  }

  /** The text `insertParsedTasks` appends for one task. */
  function TaskLine(t: FormattedTask): string {
    LineText(t) + "\n"
  }

  /** Lines, each followed by a line break, one after the other. */
  function Joined(lines: seq<string>): string {
    if lines == [] then "" else Joined(lines[..|lines| - 1]) + lines[|lines| - 1] + "\n"
  }

  function LinesOf(ts: seq<FormattedTask>): (r: seq<string>)
    ensures |r| == |ts| && forall i :: 0 <= i < |ts| ==> r[i] == LineText(ts[i])
  {
    seq(|ts|, i requires 0 <= i < |ts| => LineText(ts[i]))
  }

  /** The text for a sequence of tasks: their lines, one after the other. */
  function Block(ts: seq<FormattedTask>): string {
    Joined(LinesOf(ts))
  }

  lemma BlockSnoc(ts: seq<FormattedTask>, i: int)
    requires 0 <= i < |ts|
    ensures Block(ts[..i + 1]) == Block(ts[..i]) + TaskLine(ts[i])
  {
    var lines := LinesOf(ts[..i + 1]);
    assert lines[..i] == LinesOf(ts[..i]);
  }

  /** The loop of `insertParsedTasks`; an empty task list inserts nothing. */
  method InsertParsedTasks(tasks: seq<FormattedTask>) returns (text: Option<string>)
    ensures text.None? <==> tasks == []
    ensures text.Some? ==> text.value == Block(tasks)
  {
    if |tasks| == 0 {
      return None;
    }
    var textToInsert := "";
    var i := 0;
    while i < |tasks|
      invariant 0 <= i <= |tasks|
      invariant textToInsert == Block(tasks[..i])
    {
      var t := tasks[i];
      var listTag := "";
      if t.listName != "" {
        listTag := " #" + Slug(t.listName);
      }
      var tagsStr := TagsText(t.tags);
      var idTag := IdTag(t.rtmId);
      var rest := " " + t.name + t.priority + t.due + listTag + tagsStr;
      BlockSnoc(tasks, i);
      textToInsert := textToInsert + (Unchecked + " " + idTag + rest + "\n");
      i := i + 1;
    }
    assert tasks[..|tasks|] == tasks;
    text := Some(textToInsert);
  }

  lemma {:induction false} JoinedCons(lines: seq<string>)
    requires lines != []
    ensures Joined(lines) == lines[0] + "\n" + Joined(lines[1..])
    decreases |lines|
  {
    if |lines| > 1 {
      var n := |lines| - 1;
      var init, tail := lines[..n], lines[1..];
      JoinedCons(init);
      assert init[1..] == tail[..|tail| - 1] && tail[|tail| - 1] == lines[n];
      assert Joined(tail) == Joined(init[1..]) + lines[n] + "\n";
      Reassociate(lines[0], "\n", Joined(init[1..]), lines[n], "\n");
    } else {
      assert lines[1..] == [];
    }
  }

  // ------------------------------------------------------------ line breaks

  /** The lines of a text, each ended by `\n` (a last unterminated line counts too). */
  function SplitLines(s: string): seq<string>
    decreases |s|
  {
    if s == [] then []
    else
      match IndexOf(s, "\n", 0)
      case None => [s]
      case Some(i) => [s[..i]] + SplitLines(s[i + 1..])
  }

  lemma SplitLinesCons(a: string, b: string)
    requires '\n' !in a
    ensures SplitLines(a + "\n" + b) == [a] + SplitLines(b)
  {
    var s := a + "\n" + b;
    assert OccursAt(s, "\n", |a|);
    forall j | 0 <= j < |a| ensures !OccursAt(s, "\n", j) {
      assert s[j] == a[j];
      assert s[j..j + 1] == [s[j]];
    }
    assert IndexOf(s, "\n", 0) == Some(|a|);
    assert s[..|a|] == a && s[|a| + 1..] == b;
  }

  /** A task whose written fields, ids included, hold no line break. */
  predicate BreakFree(t: FormattedTask) {
    && '\n' !in t.rtmId.list && '\n' !in t.rtmId.series && '\n' !in t.rtmId.task
    && '\n' !in t.name && '\n' !in t.priority && '\n' !in t.due
    && forall k :: 0 <= k < |t.tags| ==> '\n' !in t.tags[k]
  }

  /** A task whose fields hold no line break and whose reference is well formed. */
  predicate SingleLine(t: FormattedTask) {
    WellFormed(t.rtmId) && BreakFree(t)
  }

  lemma {:induction false} TagsTextSingleLine(tags: seq<string>)
    requires forall k :: 0 <= k < |tags| ==> '\n' !in tags[k]
    ensures '\n' !in TagsText(tags)
    decreases |tags|
  {
    if tags != [] {
      TagsTextSingleLine(tags[1..]);
    }
  }

  lemma LineTextSingleLine(t: FormattedTask)
    requires BreakFree(t)
    ensures '\n' !in LineText(t)
  {
    TagsTextSingleLine(t.tags);
    assert IsSeparator('\n');
    var r := t.rtmId;
    assert '\n' !in r.list && '\n' !in r.series && '\n' !in r.task;
    assert '\n' !in IdTag(r);
    assert '\n' !in ListTag(t.listName);
    assert '\n' !in LineRest(t);
  }

  /** Joined lines without line breaks of their own split back into the same lines. */
  lemma {:induction false} SplitJoined(lines: seq<string>)
    requires forall i :: 0 <= i < |lines| ==> '\n' !in lines[i]
    ensures SplitLines(Joined(lines)) == lines
    decreases |lines|
  {
    if lines != [] {
      JoinedCons(lines);
      SplitLinesCons(lines[0], Joined(lines[1..]));
      SplitJoined(lines[1..]);
      assert lines == [lines[0]] + lines[1..];
    }
  }

  /** Every task yields exactly one line of the inserted text, in order. */
  lemma BlockLines(ts: seq<FormattedTask>)
    requires forall i :: 0 <= i < |ts| ==> BreakFree(ts[i])
    ensures SplitLines(Block(ts)) == LinesOf(ts)
  {
    forall i | 0 <= i < |ts| ensures '\n' !in LinesOf(ts)[i] {
      LineTextSingleLine(ts[i]);
    }
    SplitJoined(LinesOf(ts));
  }

  // ---------------------------------------------------------------- decoder

  /** The end of the run of word characters that starts at `i`. */
  function WordEnd(s: string, i: nat): (e: nat)
    requires i <= |s|
    ensures i <= e <= |s|
    ensures e == |s| || !IsWordChar(s[e])
    decreases |s| - i
  {
    if i < |s| && IsWordChar(s[i]) then WordEnd(s, i + 1) else i
  }

  /** Everything before the end of the run is a word character. */
  lemma {:induction false} WordEndWord(s: string, i: nat)
    requires i <= |s|
    ensures AllWordChars(s[i..WordEnd(s, i)])
    decreases |s| - i
  {
    if i < |s| && IsWordChar(s[i]) {
      var e := WordEnd(s, i + 1);
      WordEndWord(s, i + 1);
      assert s[i..e] == [s[i]] + s[i + 1..e];
    }
  }

  lemma {:induction false} WordEndExact(s: string, i: nat, n: nat)
    requires i + n <= |s| && AllWordChars(s[i..i + n])
    requires i + n == |s| || !IsWordChar(s[i + n])
    ensures WordEnd(s, i) == i + n
    decreases n
  {
    if n > 0 {
      assert s[i] == s[i..i + n][0];
      assert s[i + 1..i + n] == s[i..i + n][1..];
      WordEndExact(s, i + 1, n - 1);
    }
  }

  /** A group `([\w\d]+)` starting at `start` followed by `close`: where it ends. */
  function GroupEnd(s: string, start: nat, close: char): (e: Option<nat>)
    requires start <= |s|
    ensures e.Some? ==> start < e.value < |s| && s[e.value] == close
  {
    var e := WordEnd(s, start);
    if e == start || e == |s| || s[e] != close then None else Some(e)
  }

  lemma GroupEndWord(s: string, start: nat, close: char)
    requires start <= |s| && GroupEnd(s, start, close).Some?
    ensures WordId(s[start..GroupEnd(s, start, close).value])
  {
    WordEndWord(s, start);
  }

  lemma GroupEndExact(s: string, start: nat, g: string, close: char)
    requires WordId(g) && !IsWordChar(close)
    requires OccursAt(s, g, start) && start + |g| < |s| && s[start + |g|] == close
    ensures GroupEnd(s, start, close) == Some(start + |g|)
  {
    WordEndExact(s, start, |g|);
  }

  /** The regular expression `\(rtm:([\w\d]+):([\w\d]+):([\w\d]+)\)` tried at
      position `i`. Each group can only end where its run of word characters
      ends, since the character after it must be `:` or `)`. */
  function MatchAt(s: string, i: nat): Option<TaskRef>
    requires i <= |s|
  {
    if !OccursAt(s, "(rtm:", i) then None
    else
      match GroupEnd(s, i + 5, ':')
      case None => None
      case Some(e1) =>
        match GroupEnd(s, e1 + 1, ':')
        case None => None
        case Some(e2) =>
          match GroupEnd(s, e2 + 1, ')')
          case None => None
          case Some(e3) => Some(TaskRef(s[i + 5..e1], s[e1 + 1..e2], s[e2 + 1..e3]))
  }

  /** Every reference the matcher reads has three well-formed groups. */
  lemma MatchAtWellFormed(s: string, i: nat)
    requires i <= |s| && MatchAt(s, i).Some?
    ensures WellFormed(MatchAt(s, i).value)
  {
    var e1 := GroupEnd(s, i + 5, ':').value;
    var e2 := GroupEnd(s, e1 + 1, ':').value;
    GroupEndWord(s, i + 5, ':');
    GroupEndWord(s, e1 + 1, ':');
    GroupEndWord(s, e2 + 1, ')');
  }

  /** The text at `i` is the reference tag of `r`, with well-formed groups. */
  predicate PatternAt(s: string, i: nat, r: TaskRef) {
    WellFormed(r) && OccursAt(s, RefTag(r), i)
  }

  /** An occurrence of `x + y` is an occurrence of `x` followed by one of `y`. */
  lemma OccursConcat(s: string, i: nat, x: string, y: string)
    ensures OccursAt(s, x + y, i) <==> OccursAt(s, x, i) && OccursAt(s, y, i + |x|)
  {
    if i + |x| + |y| <= |s| {
      var u, v := s[i..i + |x|], s[i + |x|..i + |x| + |y|];
      assert s[i..i + |x| + |y|] == u + v;
      assert (x + y)[..|x|] == x && (x + y)[|x|..] == y;
      assert (u + v)[..|x|] == u && (u + v)[|x|..] == v;
    }
  }

  lemma OccursChar(s: string, k: nat, c: char)
    ensures OccursAt(s, [c], k) <==> k < |s| && s[k] == c
  {
    if k < |s| {
      assert s[k..k + 1] == [s[k]];
    }
  }

  /** The reference tag split into the pieces the pattern matches one by one. */
  lemma OccursRefTag(s: string, i: nat, r: TaskRef)
    ensures var e1 := i + 5 + |r.list|;
      var e2 := e1 + 1 + |r.series|;
      var e3 := e2 + 1 + |r.task|;
      OccursAt(s, RefTag(r), i) <==>
        && OccursAt(s, "(rtm:", i) && OccursAt(s, r.list, i + 5) && OccursAt(s, ":", e1)
        && OccursAt(s, r.series, e1 + 1) && OccursAt(s, ":", e2)
        && OccursAt(s, r.task, e2 + 1) && OccursAt(s, ")", e3)
  {
    var p3 := "(rtm:" + r.list + ":" + r.series;
    var p5 := p3 + ":" + r.task;
    assert RefTag(r) == p5 + ")";
    OccursConcat(s, i, p5, ")");
    OccursConcat(s, i, p3 + ":", r.task);
    OccursConcat(s, i, p3, ":");
    OccursTagHead(s, i, r);
  }

  lemma OccursTagHead(s: string, i: nat, r: TaskRef)
    ensures var e1 := i + 5 + |r.list|;
      OccursAt(s, "(rtm:" + r.list + ":" + r.series, i) <==>
        && OccursAt(s, "(rtm:", i) && OccursAt(s, r.list, i + 5) && OccursAt(s, ":", e1)
        && OccursAt(s, r.series, e1 + 1)
  {
    var p1 := "(rtm:" + r.list;
    OccursConcat(s, i, p1 + ":", r.series);
    OccursConcat(s, i, p1, ":");
    OccursConcat(s, i, "(rtm:", r.list);
  }

  lemma MatchAtIsPattern(s: string, i: nat, r: TaskRef)
    requires i <= |s| && MatchAt(s, i) == Some(r)
    ensures PatternAt(s, i, r)
  {
    MatchAtWellFormed(s, i);
    var e1 := GroupEnd(s, i + 5, ':').value;
    var e2 := GroupEnd(s, e1 + 1, ':').value;
    var e3 := GroupEnd(s, e2 + 1, ')').value;
    MatchAtGroups(s, i, e1, e2, e3);
    GroupsOccur(s, i, e1, e2, e3, r);
  }

  /** Three groups read off the text, put back together, are the text. */
  lemma GroupsOccur(s: string, i: nat, e1: nat, e2: nat, e3: nat, r: TaskRef)
    requires i + 5 <= e1 < e2 < e3 < |s| && OccursAt(s, "(rtm:", i)
    requires s[e1] == ':' && s[e2] == ':' && s[e3] == ')'
    requires r == TaskRef(s[i + 5..e1], s[e1 + 1..e2], s[e2 + 1..e3])
    ensures OccursAt(s, RefTag(r), i)
  {
    OccursChar(s, e1, ':');
    OccursChar(s, e2, ':');
    OccursChar(s, e3, ')');
    OccursRefTag(s, i, r);
  }


  lemma PatternIsMatchAt(s: string, i: nat, r: TaskRef)
    requires PatternAt(s, i, r)
    ensures i <= |s| && MatchAt(s, i) == Some(r)
  {
    OccursRefTag(s, i, r);
    var e1 := i + 5 + |r.list|;
    var e2 := e1 + 1 + |r.series|;
    OccursChar(s, e1, ':');
    OccursChar(s, e2, ':');
    OccursChar(s, e2 + 1 + |r.task|, ')');
    MatchAtPieces(s, i, r);
  }

  /** The matcher reads off each group of a well-formed tag written out piece by piece. */
  lemma MatchAtPieces(s: string, i: nat, r: TaskRef)
    requires WellFormed(r)
    requires var e1 := i + 5 + |r.list|;
      var e2 := e1 + 1 + |r.series|;
      var e3 := e2 + 1 + |r.task|;
      && OccursAt(s, "(rtm:", i) && OccursAt(s, r.list, i + 5) && OccursAt(s, r.series, e1 + 1)
      && OccursAt(s, r.task, e2 + 1) && e3 < |s| && s[e1] == ':' && s[e2] == ':' && s[e3] == ')'
    ensures i <= |s| && MatchAt(s, i) == Some(r)
  {
    var e1 := i + 5 + |r.list|;
    var e2 := e1 + 1 + |r.series|;
    var e3 := e2 + 1 + |r.task|;
    GroupEndExact(s, i + 5, r.list, ':');
    GroupEndExact(s, e1 + 1, r.series, ':');
    GroupEndExact(s, e2 + 1, r.task, ')');
    MatchAtGroups(s, i, e1, e2, e3);
  }

  lemma MatchAtGroups(s: string, i: nat, e1: nat, e2: nat, e3: nat)
    requires i <= |s| && OccursAt(s, "(rtm:", i)
    requires i + 5 <= |s| && GroupEnd(s, i + 5, ':') == Some(e1)
    requires e1 + 1 <= |s| && GroupEnd(s, e1 + 1, ':') == Some(e2)
    requires e2 + 1 <= |s| && GroupEnd(s, e2 + 1, ')') == Some(e3)
    ensures i + 5 <= e1 < e2 < e3 <= |s|
    ensures MatchAt(s, i) == Some(TaskRef(s[i + 5..e1], s[e1 + 1..e2], s[e2 + 1..e3]))
  {
  }

  /** The first position at or after `from` where the pattern matches. */
  function FindMatch(s: string, from: nat): (r: Option<(nat, TaskRef)>)
    requires from <= |s|
    ensures r.Some? ==> from <= r.value.0 <= |s| && MatchAt(s, r.value.0) == Some(r.value.1)
    ensures r.Some? ==> forall j :: from <= j < r.value.0 ==> MatchAt(s, j).None?
    ensures r.None? ==> forall j :: from <= j <= |s| ==> MatchAt(s, j).None?
    decreases |s| - from
  {
    var here := MatchAt(s, from);
    if here.Some? then Some((from, here.value))
    else if from == |s| then None
    else
      var r := FindMatch(s, from + 1);
      // the position `from` itself is the one the recursive call does not cover
      assert forall j :: from <= j <= from ==> MatchAt(s, j) == here;
      r
  }

  /** `lineText.match(regex)` and its three groups: the leftmost match. */
  function Decode(line: string): (r: Option<TaskRef>)
    ensures r.None? <==> forall j :: 0 <= j <= |line| ==> MatchAt(line, j).None?
    ensures r.Some? ==> exists j :: 0 <= j <= |line| && MatchAt(line, j) == r && forall k :: 0 <= k < j ==> MatchAt(line, k).None?
  {
    match FindMatch(line, 0)
    case None => None
    case Some(found) => Some(found.1)
  }

  /** The decoder finds no reference exactly when the line holds no reference tag. */
  lemma DecodeNone(line: string)
    ensures Decode(line).None? <==> forall j, r :: !PatternAt(line, j, r)
  {
    if Decode(line).None? {
      forall j, r | PatternAt(line, j, r) ensures false {
        PatternIsMatchAt(line, j, r);
      }
    } else {
      var j :| 0 <= j <= |line| && MatchAt(line, j) == Decode(line);
      MatchAtIsPattern(line, j, Decode(line).value);
    }
  }

  /** A reference tag after text without `(` is the one the decoder reads. */
  lemma DecodeAfter(p: string, r: TaskRef, rest: string)
    requires WellFormed(r) && '(' !in p
    ensures Decode(p + RefTag(r) + rest) == Some(r)
  {
    var s := p + RefTag(r) + rest;
    assert s[|p|..|p| + |RefTag(r)|] == RefTag(r);
    forall j | 0 <= j < |p| ensures s[j] != '(' {
      assert s[j] == p[j];
    }
    DecodeFirstTag(s, |p|, r);
  }

  /** The first `(` that opens a reference tag is where the decoder reads. */
  lemma DecodeFirstTag(s: string, i: nat, r: TaskRef)
    requires PatternAt(s, i, r)
    requires forall j :: 0 <= j < i ==> s[j] != '('
    ensures Decode(s) == Some(r)
  {
    PatternIsMatchAt(s, i, r);
    forall j | 0 <= j < i ensures MatchAt(s, j).None? {
      NoMatchWithoutParen(s, j);
    }
    var found := FindMatch(s, 0);
    assert found.Some?;
    assert found.value.0 == i;
  }

  lemma NoMatchWithoutParen(s: string, j: nat)
    requires j < |s| && s[j] != '('
    ensures MatchAt(s, j).None?
  {
    OccursConcat(s, j, "(", "rtm:");
    OccursChar(s, j, '(');
  }

  /** Round trip: the line written for a task decodes to the task's reference. */
  lemma TaskLineRoundTrip(t: FormattedTask)
    requires WellFormed(t.rtmId)
    ensures Decode(TaskLine(t)) == Some(t.rtmId)
    ensures Decode(LineText(t)) == Some(t.rtmId)
  {
    var rest := LineRest(t);
    assert LineText(t) == ("- [ ] " + IdGlyph) + RefTag(t.rtmId) + rest;
    assert TaskLine(t) == ("- [ ] " + IdGlyph) + RefTag(t.rtmId) + (rest + "\n");
    DecodeAfter("- [ ] " + IdGlyph, t.rtmId, rest);
    DecodeAfter("- [ ] " + IdGlyph, t.rtmId, rest + "\n");
  }

  /** Every line of an inserted block decodes to its task's reference. */
  lemma BlockRoundTrip(ts: seq<FormattedTask>)
    requires forall i :: 0 <= i < |ts| ==> SingleLine(ts[i])
    ensures |SplitLines(Block(ts))| == |ts|
    ensures forall i :: 0 <= i < |ts| ==> Decode(SplitLines(Block(ts))[i]) == Some(ts[i].rtmId)
  {
    BlockLines(ts);
    forall i | 0 <= i < |ts| ensures Decode(SplitLines(Block(ts))[i]) == Some(ts[i].rtmId) {
      TaskLineRoundTrip(ts[i]);
    }
  }

  // ------------------------------------------------------------- line edits

  /** `lineText.replace('- [ ]', '- [x]')`. */
  function CompleteLine(line: string): string {
    ReplaceFirst(line, Unchecked, Checked)
  }

  /** Completing a line ticks its first unchecked box and keeps every other
      character; a line without an unchecked box is kept as it is. */
  lemma CompleteLineTicksBox(line: string)
    ensures IndexOf(line, Unchecked, 0).None? ==> CompleteLine(line) == line
    ensures IndexOf(line, Unchecked, 0).Some? ==>
      var i := IndexOf(line, Unchecked, 0).value;
      var r := CompleteLine(line);
      && |r| == |line| && r[i..i + 5] == Checked
      && forall k :: 0 <= k < |line| && k != i + 3 ==> r[k] == line[k]
  {
    if IndexOf(line, Unchecked, 0).Some? {
      var i := IndexOf(line, Unchecked, 0).value;
      var r := CompleteLine(line);
      assert line[i..i + 5] == Unchecked;
      forall k | 0 <= k < |line| && k != i + 3
        ensures r[k] == line[k]
      {
        if k < i {
          assert r[k] == r[..i][k];
        } else if k < i + 5 {
          assert r[k] == r[i..i + 5][k - i] && line[k] == line[i..i + 5][k - i];
        } else {
          assert r[k] == r[i + 5..][k - i - 5];
        }
      }
    }
  }

  lemma CompleteUnchecked(rest: string)
    ensures CompleteLine(Unchecked + rest) == Checked + rest
  {
    var s := Unchecked + rest;
    assert OccursAt(s, Unchecked, 0);
    assert s[5..] == rest;
  }

  /** Ticking a written line changes only its box. */
  lemma CompleteTaskLine(t: FormattedTask)
    ensures CompleteLine(TaskLine(t)) == Checked + " " + IdTag(t.rtmId) + LineRest(t) + "\n"
  {
    var body := " " + IdTag(t.rtmId) + LineRest(t) + "\n";
    Reassociate(Unchecked, " ", IdTag(t.rtmId), LineRest(t), "\n");
    Reassociate(Checked, " ", IdTag(t.rtmId), LineRest(t), "\n");
    CompleteUnchecked(body);
  }

  lemma Reassociate(a: string, b: string, c: string, d: string, e: string)
    ensures a + b + c + d + e == a + (b + c + d + e)
  {
  }

  /** A ticked line still decodes to its task's reference. */
  lemma CompletedTaskLineRoundTrip(t: FormattedTask)
    requires WellFormed(t.rtmId)
    ensures Decode(CompleteLine(TaskLine(t))) == Some(t.rtmId)
  {
    CompleteTaskLine(t);
    assert Checked + " " + IdTag(t.rtmId) + LineRest(t) + "\n" == ("- [x] " + IdGlyph) + RefTag(t.rtmId) + (LineRest(t) + "\n");
    DecodeAfter("- [x] " + IdGlyph, t.rtmId, LineRest(t) + "\n");
  }

  /** What `completeTaskInEditor` does with the decoded line before any request. */
  datatype Target = NoLink | InvalidList | Complete(ref: TaskRef)

  /** No reference: nothing to do; list id `MISSING`: refused; otherwise the task to complete. */
  function CompletionTarget(line: string): (c: Target)
    ensures c.NoLink? <==> Decode(line).None?
    ensures c.InvalidList? <==> Decode(line).Some? && Decode(line).value.list == Missing
    ensures c.Complete? ==> Decode(line) == Some(c.ref) && c.ref.list != Missing
  {
    match Decode(line)
    case None => NoLink
    case Some(ref) => if ref.list == "" || ref.list == Missing then InvalidList else Complete(ref)
  }

  /** A written task line is completed unless its list id is the sentinel. */
  lemma CompletionTargetOfTaskLine(t: FormattedTask)
    requires WellFormed(t.rtmId)
    ensures t.rtmId.list == Missing ==> CompletionTarget(TaskLine(t)) == InvalidList
    ensures t.rtmId.list != Missing ==> CompletionTarget(TaskLine(t)) == Complete(t.rtmId)
  {
    TaskLineRoundTrip(t);
  }

  /** The line `addTaskFromEditor` writes back once the task exists remotely. */
  function AddedLine(taskName: string, ref: TaskRef): string {
    "- [ ] " + IdTag(ref) + " " + taskName
  }

  lemma AddedLineRoundTrip(taskName: string, ref: TaskRef)
    requires WellFormed(ref)
    ensures Decode(AddedLine(taskName, ref)) == Some(ref)
  {
    assert AddedLine(taskName, ref) == ("- [ ] " + IdGlyph) + RefTag(ref) + (" " + taskName);
    DecodeAfter("- [ ] " + IdGlyph, ref, " " + taskName);
  }

  predicate IsBullet(c: char) {
    c == '-' || c == '*'
  }

  /** `/^[-*] \[[ x]\] /`. */
  predicate StartsWithCheckbox(s: string) {
    |s| >= 6 && IsBullet(s[0]) && s[1] == ' ' && s[2] == '[' && (s[3] == ' ' || s[3] == 'x') && s[4] == ']' && s[5] == ' '
  }

  /** `/^[-*] /`. */
  predicate StartsWithBullet(s: string) {
    |s| >= 2 && IsBullet(s[0]) && s[1] == ' '
  }

  function StripCheckbox(s: string): (r: string)
    ensures |r| <= |s|
  {
    if StartsWithCheckbox(s) then s[6..] else s
  }

  function StripBullet(s: string): (r: string)
    ensures |r| <= |s|
  {
    if StartsWithBullet(s) then s[2..] else s
  }

  /** `lineText.replace(checkbox, '').replace(bullet, '').trim()`. */
  function TaskNameOf(line: string): (r: string)
    ensures |r| <= |line|
    ensures r != [] ==> !IsSpace(r[0]) && !IsSpace(r[|r| - 1])
  {
    Trim(StripBullet(StripCheckbox(line)))
  }

  /** A line opening with neither marker is named by its trimmed text. */
  lemma TaskNameNoMarker(line: string)
    requires !StartsWithCheckbox(line) && !StartsWithBullet(line)
    ensures TaskNameOf(line) == Trim(line)
  {
  }

  /** After a checkbox marker, the name is the trimmed rest of the line. */
  lemma TaskNameAfterCheckbox(marker: string, rest: string)
    requires StartsWithCheckbox(marker) && |marker| == 6
    requires !StartsWithBullet(rest)
    ensures TaskNameOf(marker + rest) == Trim(rest)
  {
    assert (marker + rest)[6..] == rest;
  }

  /** A checkbox marker followed by a bullet loses both: `- [ ] - foo` is named `foo`. */
  lemma TaskNameCheckboxThenBullet(marker: string, bullet: string, rest: string)
    requires StartsWithCheckbox(marker) && |marker| == 6
    requires StartsWithBullet(bullet) && |bullet| == 2
    ensures TaskNameOf(marker + bullet + rest) == Trim(rest)
  {
    var line := marker + (bullet + rest);
    assert marker + bullet + rest == line;
    assert line[..6] == marker && line[6..] == bullet + rest;
    assert StripCheckbox(line) == bullet + rest;
    assert (bullet + rest)[..2] == bullet && (bullet + rest)[2..] == rest;
    assert StripBullet(bullet + rest) == rest;
  }

  /** After a bare bullet, the name is the trimmed rest of the line, even when
      that rest opens with another bullet: only one is removed. */
  lemma TaskNameAfterBullet(marker: string, rest: string)
    requires StartsWithBullet(marker) && |marker| == 2
    requires !StartsWithCheckbox(marker + rest)
    ensures TaskNameOf(marker + rest) == Trim(rest)
  {
    assert (marker + rest)[2..] == rest;
  }
}
