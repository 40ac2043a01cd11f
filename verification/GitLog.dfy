/** The printer of a `git log`-like text and the parser that reads it back. */
module GitLog {
  import opened Wrappers

  /******* Characters and lines *******/

  /** The line terminators of the pattern language: `^` and `$` match beside them in multi-line mode, and
      `.` matches anything else. */
  predicate IsBreak(c: char) {
    c == '\n' || c == '\r' || c == '\U{2028}' || c == '\U{2029}'
  }

  predicate OneLine(s: string) {
    forall i :: 0 <= i < |s| ==> !IsBreak(s[i])
  }

  /** `\s`, which is also what `trim` strips. */
  predicate IsSpace(c: char) {
    || IsBreak(c) || c == '\t' || c == '\U{0b}' || c == '\U{0c}' || c == ' ' || c == '\U{a0}' || c == '\U{1680}'
    || '\U{2000}' <= c <= '\U{200a}' || c == '\U{202f}' || c == '\U{205f}' || c == '\U{3000}' || c == '\U{feff}'
  }

  function TrimStart(s: string): string {
    if s != "" && IsSpace(s[0]) then TrimStart(s[1..]) else s
  }

  function TrimEnd(s: string): string {
    if s != "" && IsSpace(s[|s| - 1]) then TrimEnd(s[..|s| - 1]) else s
  }

  function Trim(s: string): string {
    TrimStart(TrimEnd(s))
  }

  /** `s.split("\n")` */
  function SplitLines(s: string): (lines: seq<string>)
    ensures |lines| > 0
  {
    if s == "" then [""]
    else
      var rest := SplitLines(s[1..]);
      if s[0] == '\n' then [""] + rest else [[s[0]] + rest[0]] + rest[1..]
  }

  /** `lines.join("\n")` */
  function JoinLines(lines: seq<string>): string
    requires |lines| > 0
  {
    if |lines| == 1 then lines[0] else lines[0] + "\n" + JoinLines(lines[1..])
  }

  function Unlines(lines: seq<string>): string {
    if lines == [] then "" else lines[0] + "\n" + Unlines(lines[1..])
  }

  function Indent(lines: seq<string>): (indented: seq<string>)
    ensures |indented| == |lines|
    ensures forall i :: 0 <= i < |lines| ==> indented[i] == "    " + lines[i]
  {
    seq(|lines|, i requires 0 <= i < |lines| => "    " + lines[i])
  }

  predicate StartsWith(s: string, prefix: string) {
    prefix <= s
  }

  /******* Commits *******/

  /** What the repository service hands over: one author name and one date per commit. */
  datatype FormattedCommit = FormattedCommit(sha: string, name: string, date: string, message: string)

  datatype Person = Person(name: string, email: string, date: string)

  datatype GitCommit = GitCommit(sha: string, message: string, author: Person, committer: Person)

  /******* The printer *******/

  const MAIL := "unknown@email"
  const TAIL := " <unknown@email>"

  function HeadLines(c: FormattedCommit): seq<string> {
    ["Author: " + c.name + TAIL, "AuthorDate: " + c.date, "Commit: " + c.name + TAIL, "CommitDate: " + c.date, ""]
  }

  /** The lines printed for one commit. */
  function PrintedLines(c: FormattedCommit): seq<string> {
    ["commit " + c.sha] + HeadLines(c) + Indent(SplitLines(c.message)) + [""]
  }

  function Printed(cs: seq<FormattedCommit>): string {
    if cs == [] then "" else Unlines(PrintedLines(cs[0])) + Printed(cs[1..])
  }

  lemma {:induction false} UnlinesOfSum(a: seq<string>, b: seq<string>)
    ensures Unlines(a + b) == Unlines(a) + Unlines(b)
  {
    if a == [] {
      assert a + b == b;
    } else {
      UnlinesOfSum(a[1..], b);
      assert (a + b)[1..] == a[1..] + b;
    }
  }

  lemma {:induction false} JoinThenEnd(lines: seq<string>)
    requires |lines| > 0
    ensures JoinLines(lines) + "\n" == Unlines(lines)
  {
    if |lines| > 1 {
      JoinThenEnd(lines[1..]);
    } else {
      assert lines == [lines[0]] && Unlines(lines[1..]) == "";
    }
  }

  lemma {:induction false} PrintedLast(cs: seq<FormattedCommit>, c: FormattedCommit)
    ensures Printed(cs + [c]) == Printed(cs) + Unlines(PrintedLines(c))
  {
    if cs == [] {
      assert cs + [c] == [c] && Printed([c][1..]) == "";
    } else {
      PrintedLast(cs[1..], c);
      assert (cs + [c])[0] == cs[0] && (cs + [c])[1..] == cs[1..] + [c];
      Reassociate(Unlines(PrintedLines(cs[0])), Printed(cs[1..]), Unlines(PrintedLines(c)));
    }
  }

  lemma AppendLine(before: string, lines: seq<string>, text: string, line: string)
    requires text == before + Unlines(lines)
    ensures text + line + "\n" == before + Unlines(lines + [line])
  {
    UnlinesOfSum(lines, [line]);
    assert Unlines([line]) == line + "\n" by { assert [line][1..] == []; }
    Reassociate(before, Unlines(lines), line);
    Reassociate(before, Unlines(lines) + line, "\n");
    Reassociate(Unlines(lines), line, "\n");
  }

  lemma AppendBody(before: string, lines: seq<string>, text: string, body: seq<string>)
    requires text == before + Unlines(lines) && |body| > 0
    ensures text + JoinLines(body) + "\n" == before + Unlines(lines + body)
  {
    UnlinesOfSum(lines, body);
    JoinThenEnd(body);
    Reassociate(text, JoinLines(body), "\n");
    Reassociate(before, Unlines(lines), Unlines(body));
  }

  /** The log with one more commit. */
  method PrintCommit(gitLog: string, c: FormattedCommit) returns (text: string)
    ensures text == gitLog + Unlines(PrintedLines(c))
  {
    ghost var lines: seq<string> := [];
    ghost var printed := PrintedLines(c);
    text := gitLog;
    assert text == gitLog + Unlines(lines);
    AppendLine(gitLog, lines, text, printed[0]);
    text, lines := text + ("commit " + c.sha) + "\n", lines + [printed[0]];
    AppendLine(gitLog, lines, text, printed[1]);
    text, lines := text + ("Author: " + c.name + TAIL) + "\n", lines + [printed[1]];
    AppendLine(gitLog, lines, text, printed[2]);
    text, lines := text + ("AuthorDate: " + c.date) + "\n", lines + [printed[2]];
    AppendLine(gitLog, lines, text, printed[3]);
    text, lines := text + ("Commit: " + c.name + TAIL) + "\n", lines + [printed[3]];
    AppendLine(gitLog, lines, text, printed[4]);
    text, lines := text + ("CommitDate: " + c.date) + "\n", lines + [printed[4]];
    AppendLine(gitLog, lines, text, "");
    text, lines := text + "" + "\n", lines + [""];
    var body := Indent(SplitLines(c.message));
    var indentedMessage := JoinLines(body);
    AppendBody(gitLog, lines, text, body);
    text, lines := text + indentedMessage + "\n", lines + body;
    AppendLine(gitLog, lines, text, "");
    text, lines := text + "" + "\n", lines + [""];
    assert lines == printed;
  }

  /** `convertToGitLogFormat` */
  method ConvertToGitLogFormat(commits: seq<FormattedCommit>) returns (gitLog: string)
    ensures gitLog == Printed(commits)
  {
    gitLog := "";
    for k := 0 to |commits|
      invariant gitLog == Printed(commits[..k])
    {
      PrintedLast(commits[..k], commits[k]);
      assert commits[..k + 1] == commits[..k] + [commits[k]];
      gitLog := PrintCommit(gitLog, commits[k]);
    }
    assert commits[..|commits|] == commits;
  }

  /******* The parser *******/

  predicate IsHex(c: char) {
    'a' <= c <= 'f' || '0' <= c <= '9'
  }

  predicate IsSha(s: string) {
    |s| == 40 && forall i :: 0 <= i < 40 ==> IsHex(s[i])
  }

  /** `^commit [a-f0-9]{40}$` in multi-line mode, at position `q`. */
  predicate HeaderAt(s: string, q: nat) {
    && q + 47 <= |s| && s[q..q + 7] == "commit " && IsSha(s[q + 7..q + 47])
    && (q == 0 || IsBreak(s[q - 1])) && (q + 47 == |s| || IsBreak(s[q + 47]))
  }

  function NextHeader(s: string, q: nat): (n: nat)
    requires q <= |s|
    ensures q <= n <= |s| && (n < |s| ==> HeaderAt(s, n)) && forall i :: q <= i < n ==> !HeaderAt(s, i)
    decreases |s| - q
  {
    if q == |s| || HeaderAt(s, q) then q else NextHeader(s, q + 1)
  }

  /** The text cut before every header but one at its very start; empty pieces are dropped. */
  function Blocks(s: string): seq<string>
    decreases |s|
  {
    if s == "" then []
    else
      var n := NextHeader(s, 1);
      [s[..n]] + Blocks(s[n..])
  }

  /** `(.+) <(.+)>$` with the space of ` <` at `i`. */
  predicate PersonAt(body: string, i: nat) {
    && 1 <= i && i + 3 < |body| && body[i] == ' ' && body[i + 1] == '<' && body[|body| - 1] == '>'
    && OneLine(body[..i]) && OneLine(body[i + 2..|body| - 1])
  }

  /** The first `.+` is greedy: the last place that matches. */
  function LastPerson(body: string, i: nat): Option<(string, string)> {
    if PersonAt(body, i) then Some((body[..i], body[i + 2..|body| - 1]))
    else if i == 0 then None
    else LastPerson(body, i - 1)
  }

  function LeadingSpaces(s: string): (n: nat)
    ensures n <= |s| && (forall i :: 0 <= i < n ==> IsSpace(s[i])) && (n < |s| ==> !IsSpace(s[n]))
  {
    if s != "" && IsSpace(s[0]) then 1 + LeadingSpaces(s[1..]) else 0
  }

  /** `\s+` is greedy too, and gives characters back when the rest does not match. */
  function PersonAfter(rest: string, k: nat): Option<(string, string)>
    requires k <= |rest|
  {
    if k == 0 then None
    else if LastPerson(rest[k..], |rest| - k).Some? then LastPerson(rest[k..], |rest| - k)
    else PersonAfter(rest, k - 1)
  }

  /** The two groups of `^<tag>\s+(.+) <(.+)>$`. */
  function MatchPerson(tag: string, line: string): Option<(string, string)>
    requires StartsWith(line, tag)
  {
    var rest := line[|tag|..];
    PersonAfter(rest, LeadingSpaces(rest))
  }

  /** What the loop over the lines of a block has collected. */
  datatype Draft = Draft(author: Person, committer: Person, message: string, messageStarted: bool)

  const EMPTY := Draft(Person("", "", ""), Person("", "", ""), "", false)

  function Named(p: Person, found: Option<(string, string)>): Person {
    if found.Some? then p.(name := found.value.0, email := found.value.1) else p
  }

  function ReadLine(d: Draft, line: string): Draft {
    if line == "" then d.(messageStarted := true)
    else if StartsWith(line, "Author:") then d.(author := Named(d.author, MatchPerson("Author:", line)))
    else if StartsWith(line, "AuthorDate: ") then d.(author := d.author.(date := line[12..]))
    else if StartsWith(line, "Commit:") then d.(committer := Named(d.committer, MatchPerson("Commit:", line)))
    else if StartsWith(line, "CommitDate: ") then d.(committer := d.committer.(date := line[12..]))
    else if d.messageStarted && StartsWith(line, "    ") then d.(message := d.message + line[4..] + "\n")
    else d
  }

  function ReadLines(d: Draft, lines: seq<string>): Draft
    decreases |lines|
  {
    if lines == [] then d else ReadLines(ReadLine(d, lines[0]), lines[1..])
  }

  predicate IsHeader(line: string) {
    |line| == 47 && StartsWith(line, "commit ") && IsSha(line[7..])
  }

  function ParsedLines(lines: seq<string>): Option<GitCommit>
    requires |lines| > 0
  {
    if IsHeader(lines[0]) then
      var d := ReadLines(EMPTY, lines[1..]);
      Some(GitCommit(lines[0][7..], Trim(d.message), d.author, d.committer))
    else None
  }

  function ParsedBlocks(blocks: seq<string>): seq<GitCommit> {
    if blocks == [] then []
    else
      var c := ParsedLines(SplitLines(blocks[0]));
      (if c.Some? then [c.value] else []) + ParsedBlocks(blocks[1..])
  }

  function Parsed(s: string): seq<GitCommit> {
    ParsedBlocks(Blocks(s))
  }

  /** `parseCommitBlock` */
  method ParseCommitBlock(block: string) returns (c: Option<GitCommit>)
    ensures c == ParsedLines(SplitLines(block))
  {
    var lines := SplitLines(block);
    if !IsHeader(lines[0]) {
      return None;
    }
    var sha := lines[0][7..];
    var author, committer := Person("", "", ""), Person("", "", "");
    var message, messageStarted := "", false;
    for i := 1 to |lines|
      invariant ReadLines(Draft(author, committer, message, messageStarted), lines[i..]) == ReadLines(EMPTY, lines[1..])
    {
      var line := lines[i];
      assert lines[i..][0] == line && lines[i..][1..] == lines[i + 1..];
      if line == "" && !messageStarted {
        messageStarted := true;
        continue;
      }
      if line == "" {
        continue;
      }
      if StartsWith(line, "Author:") {
        var found := MatchPerson("Author:", line);
        if found.Some? {
          author := author.(name := found.value.0, email := found.value.1);
        }
      } else if StartsWith(line, "AuthorDate: ") {
        author := author.(date := line[|"AuthorDate: "|..]);
      } else if StartsWith(line, "Commit:") {
        var found := MatchPerson("Commit:", line);
        if found.Some? {
          committer := committer.(name := found.value.0, email := found.value.1);
        }
      } else if StartsWith(line, "CommitDate: ") {
        committer := committer.(date := line[|"CommitDate: "|..]);
      } else if messageStarted && StartsWith(line, "    ") {
        message := message + line[4..] + "\n";
      }
    }
    assert lines[|lines|..] == [];
    message := Trim(message);
    return Some(GitCommit(sha, message, author, committer));
  }

  /** `parseGitLog` */
  method ParseGitLog(rawGitLog: string) returns (commits: seq<GitCommit>)
    ensures commits == Parsed(rawGitLog)
  {
    commits := [];
    var commitBlocks := Blocks(rawGitLog);
    for k := 0 to |commitBlocks|
      invariant commits + ParsedBlocks(commitBlocks[k..]) == Parsed(rawGitLog)
    {
      assert commitBlocks[k..][0] == commitBlocks[k] && commitBlocks[k..][1..] == commitBlocks[k + 1..];
      var c := ParseCommitBlock(commitBlocks[k]);
      if c.Some? {
        Reassociate(commits, [c.value], ParsedBlocks(commitBlocks[k + 1..]));
        commits := commits + [c.value];
      }
    }
    assert commitBlocks[|commitBlocks|..] == [];
  }

  /******* Where the printed text is cut *******/

  /** No line but perhaps the first starts with the `c` of a header. */
  predicate Quiet(s: string) {
    forall q :: 1 <= q < |s| && IsBreak(s[q - 1]) ==> s[q] != 'c'
  }

  lemma {:induction false} UnlinesQuiet(lines: seq<string>)
    requires forall k :: 0 <= k < |lines| ==> OneLine(lines[k])
    requires forall k :: 1 <= k < |lines| ==> lines[k] == "" || lines[k][0] != 'c'
    ensures Quiet(Unlines(lines))
  {
    if lines != [] {
      UnlinesQuiet(lines[1..]);
      var first, rest := lines[0] + "\n", Unlines(lines[1..]);
      assert rest != "" ==> rest[0] != 'c';
      assert forall i :: 0 <= i < |lines[0]| ==> (first + rest)[i] == lines[0][i];
      forall q | 1 <= q < |first + rest| && IsBreak((first + rest)[q - 1]) ensures (first + rest)[q] != 'c' {
        if q > |first| {
          assert rest[q - |first| - 1] == (first + rest)[q - 1] && rest[q - |first|] == (first + rest)[q];
        }
      }
    }
  }

  /** A header is the word, a full hash, and then the end of the text or of the line. */
  lemma HeaderText(sha: string, tail: string)
    requires IsSha(sha)
    ensures HeaderAt("commit " + sha + tail, 0) <==> tail == "" || IsBreak(tail[0])
  {
    var s := "commit " + sha + tail;
    assert s[..7] == "commit " && s[7..47] == sha && (tail != "" ==> s[47] == tail[0]);
  }

  /** A quiet piece that ends its line is a block of its own, whatever starts after it. */
  lemma BlockCut(a: string, rest: string)
    requires a != "" && Quiet(a) && a[|a| - 1] == '\n'
    requires rest == "" || HeaderAt(rest, 0)
    ensures Blocks(a + rest) == [a] + Blocks(rest)
  {
    var s := a + rest;
    if rest != "" {
      assert s[|a|..] == rest && s[|a|..|a| + 7] == rest[..7] && s[|a| + 7..|a| + 47] == rest[7..47];
      assert |rest| > 47 ==> s[|a| + 47] == rest[47];
      assert HeaderAt(s, |a|);
    }
    forall q | 1 <= q < |a| ensures !HeaderAt(s, q) {
      assert s[q - 1] == a[q - 1] && s[q] == a[q];
      if q + 7 <= |s| && s[q..q + 7] == "commit " {
        assert s[q] == s[q..q + 7][0] == 'c';
      }
    }
    assert NextHeader(s, 1) == |a|;
    assert s[..|a|] == a && s[|a|..] == rest;
  }

  /******* Reading one block back *******/

  lemma {:induction false} SplitOneLine(line: string, rest: string)
    requires forall i :: 0 <= i < |line| ==> line[i] != '\n'
    ensures SplitLines(line + "\n" + rest) == [line] + SplitLines(rest)
  {
    var s := line + "\n" + rest;
    if line == "" {
      assert s[1..] == rest;
    } else {
      SplitOneLine(line[1..], rest);
      assert s[1..] == line[1..] + "\n" + rest && s[0] == line[0];
      var tail := SplitLines(s[1..]);
      assert [s[0]] + tail[0] == line && tail[1..] == SplitLines(rest);
    }
  }

  lemma {:induction false} SplitUnlines(lines: seq<string>)
    requires forall k :: 0 <= k < |lines| ==> OneLine(lines[k])
    ensures SplitLines(Unlines(lines)) == lines + [""]
  {
    if lines != [] {
      SplitUnlines(lines[1..]);
      assert OneLine(lines[0]);
      SplitOneLine(lines[0], Unlines(lines[1..]));
    }
  }

  /** The pieces of a split join to the text. */
  lemma {:induction false} JoinOfSplit(s: string)
    ensures JoinLines(SplitLines(s)) == s
  {
    if s != "" {
      JoinOfSplit(s[1..]);
      var rest := SplitLines(s[1..]);
      if s[0] == '\n' {
        assert ([""] + rest)[1..] == rest;
        assert "" + "\n" + s[1..] == s;
      } else {
        JoinPrepended(s[0], rest);
        assert [s[0]] + s[1..] == s;
      }
    }
  }

  lemma JoinPrepended(c: char, lines: seq<string>)
    requires |lines| > 0
    ensures JoinLines([[c] + lines[0]] + lines[1..]) == [c] + JoinLines(lines)
  {
    var next := [[c] + lines[0]] + lines[1..];
    assert next[1..] == lines[1..];
    if |lines| > 1 {
      Reassociate([c], lines[0], "\n");
      Reassociate([c], lines[0] + "\n", JoinLines(lines[1..]));
    }
  }

  /** The line feed is the only line terminator in it. */
  predicate OnlyLineFeeds(s: string) {
    forall i :: 0 <= i < |s| && s[i] != '\n' ==> !IsBreak(s[i])
  }

  lemma {:induction false} PiecesOneLine(s: string)
    requires OnlyLineFeeds(s)
    ensures forall k :: 0 <= k < |SplitLines(s)| ==> OneLine(SplitLines(s)[k])
  {
    if s != "" {
      PiecesOneLine(s[1..]);
    }
  }

  lemma {:induction false} ReadLinesOfSum(d: Draft, a: seq<string>, b: seq<string>)
    ensures ReadLines(d, a + b) == ReadLines(ReadLines(d, a), b)
    decreases |a|
  {
    if a == [] {
      assert a + b == b;
    } else {
      ReadLinesOfSum(ReadLine(d, a[0]), a[1..], b);
      assert (a + b)[0] == a[0] && (a + b)[1..] == a[1..] + b;
    }
  }

  lemma ReadIndented(d: Draft, text: string)
    requires d.messageStarted
    ensures ReadLine(d, "    " + text) == d.(message := d.message + text + "\n")
  {
    var line := "    " + text;
    assert line[0] == ' ' && line[4..] == text;
  }

  /** Indented lines are taken as they are, even those that look like headers. */
  lemma {:induction false} ReadBody(d: Draft, lines: seq<string>)
    requires d.messageStarted
    ensures ReadLines(d, Indent(lines)) == d.(message := d.message + Unlines(lines))
    decreases |lines|
  {
    if lines != [] {
      var next := d.(message := d.message + lines[0] + "\n");
      ReadIndented(d, lines[0]);
      assert Indent(lines)[0] == "    " + lines[0] && Indent(lines)[1..] == Indent(lines[1..]);
      ReadBody(next, lines[1..]);
      Reassociate(d.message, lines[0], "\n");
      Reassociate(d.message, lines[0] + "\n", Unlines(lines[1..]));
    } else {
      assert d.message + "" == d.message;
    }
  }

  /******* Author names *******/

  /** The name that comes back: leading white space is taken for padding, but a name of nothing else keeps
      its last character. */
  function ParsedName(name: string): string {
    if LeadingSpaces(name) < |name| || name == "" then name[LeadingSpaces(name)..] else name[|name| - 1..]
  }


  lemma OneSpace(j: nat)
    requires 0 < j < |TAIL|
    ensures TAIL[j] != ' '
  {
    assert TAIL == [' ', '<', 'u', 'n', 'k', 'n', 'o', 'w', 'n', '@', 'e', 'm', 'a', 'i', 'l', '>'];
  }

  lemma TailParts()
    ensures |TAIL| == |MAIL| + 3 && TAIL[0] == ' ' && TAIL[1] == '<' && TAIL[2..|TAIL| - 1] == MAIL
            && TAIL[|TAIL| - 1] == '>'
    ensures OneLine(MAIL)
  {
  }


  lemma PersonBeforeTail(x: string)
    requires OneLine(x)
    ensures PersonAt(x + TAIL, |x|) <==> x != ""
    ensures (x + TAIL)[..|x|] == x && (x + TAIL)[|x| + 2..|x + TAIL| - 1] == MAIL
  {
    TailParts();
  }

  lemma {:induction false} LastPersonFound(x: string, i: nat)
    requires OneLine(x) && |x| <= i <= |x| + |TAIL|
    ensures LastPerson(x + TAIL, i) == if x == "" then None else Some((x, MAIL))
  {
    var body := x + TAIL;
    if i == |x| {
      PersonBeforeTail(x);
    } else {
      if i < |body| {
        OneSpace(i - |x|);
        assert body[i] == TAIL[i - |x|];
      }
      LastPersonFound(x, i - 1);
    }
  }

  lemma {:induction false} NoPersonInMail(body: string, i: nat)
    requires body == "<unknown@email>" && i <= |body|
    ensures LastPerson(body, i) == None
  {
    assert i < |body| ==> body[i] != ' ';
    if i > 0 {
      NoPersonInMail(body, i - 1);
    }
  }

  lemma {:induction false} LeadingSpacesOf(a: string, b: string)
    requires (forall i :: 0 <= i < |a| ==> IsSpace(a[i])) && b != "" && !IsSpace(b[0])
    ensures LeadingSpaces(a + b) == |a|
  {
    assert (a + b)[|a|] == b[0];
    assert forall i :: 0 <= i < |a| ==> (a + b)[i] == a[i];
  }

  lemma PersonReadBack(tag: string, name: string)
    requires OneLine(name)
    ensures MatchPerson(tag, tag + " " + name + TAIL) == if name == "" then None else Some((ParsedName(name), MAIL))
  {
    var line := tag + " " + name + TAIL;
    var rest := " " + name + TAIL;
    assert line[|tag|..] == rest;
    var lead := LeadingSpaces(name);
    if lead < |name| {
      PaddingOf(name, lead, TAIL);
      PaddedPerson(" " + name[..lead], name[lead..], rest);
    } else {
      BlankRest(name, rest);
      BlankPerson(name, rest, lead);
    }
  }

  /** A name with something in it: its leading white space goes with the padding. */
  lemma PaddedPerson(padding: string, x: string, rest: string)
    requires rest == padding + (x + TAIL) && padding != "" && OneLine(x) && x != "" && !IsSpace(x[0])
    requires forall i :: 0 <= i < |padding| ==> IsSpace(padding[i])
    ensures PersonAfter(rest, LeadingSpaces(rest)) == Some((x, MAIL))
  {
    Rest(padding, x + TAIL, |padding|, rest);
    LastPersonFound(x, |x| + |TAIL|);
  }

  lemma PaddingOf(name: string, lead: nat, tail: string)
    requires lead <= |name|
    ensures " " + name + tail == (" " + name[..lead]) + (name[lead..] + tail)
  {
    var padding, x := " " + name[..lead], name[lead..];
    assert " " + name == padding + x;
    Reassociate(padding, x, tail);
  }

  lemma Rest(padding: string, body: string, n: nat, rest: string)
    requires rest == padding + body && n == |padding|
    requires (forall i :: 0 <= i < n ==> IsSpace(padding[i])) && body != "" && !IsSpace(body[0])
    ensures LeadingSpaces(rest) == n && rest[n..] == body
  {
    LeadingSpacesOf(padding, body);
    AfterPrefix(padding, body);
  }

  lemma GiveBack(rest: string, k: nat)
    requires 0 < k <= |rest| && LastPerson(rest[k..], |rest| - k) == None
    ensures PersonAfter(rest, k) == PersonAfter(rest, k - 1)
  {
  }

  /** A name of white space only: the spaces before the bracket are given back until one is left for it. */
  lemma BlankPerson(name: string, rest: string, n: nat)
    requires OneLine(name) && n == |name| && n + 2 <= |rest|
    requires rest[n + 2..] == "<unknown@email>" && rest[n + 1..] == TAIL
    requires n > 0 ==> rest[n..] == name[n - 1..] + TAIL
    ensures PersonAfter(rest, n + 2) == if n == 0 then None else Some((name[n - 1..], MAIL))
  {
    GiveBackTwice(rest, n);
    if n > 0 {
      var x := name[n - 1..];
      LastPersonFound(x, 1 + |TAIL|);
      assert PersonAfter(rest, n) == LastPerson(x + TAIL, 1 + |TAIL|);
    }
  }

  lemma GiveBackTwice(rest: string, n: nat)
    requires n + 2 <= |rest| && rest[n + 2..] == "<unknown@email>" && rest[n + 1..] == TAIL
    ensures PersonAfter(rest, n + 2) == PersonAfter(rest, n)
  {
    NoPersonInMail(rest[n + 2..], |rest| - (n + 2));
    GiveBack(rest, n + 2);
    LastPersonFound("", |TAIL|);
    assert "" + TAIL == TAIL;
    GiveBack(rest, n + 1);
  }

  lemma BlankRest(name: string, rest: string)
    requires LeadingSpaces(name) == |name| && rest == " " + name + TAIL
    ensures var n := |name|; LeadingSpaces(rest) == n + 2 && rest[n + 2..] == "<unknown@email>" && rest[n + 1..] == TAIL
                             && (n > 0 ==> rest[n..] == name[n - 1..] + TAIL)
  {
    var n, mail := |name|, "<unknown@email>";
    var spaces := " " + name + " ";
    assert TAIL == " " + mail;
    Reassociate(" " + name, " ", mail);
    LeadingSpacesOf(spaces, mail);
    AfterPrefix(spaces, mail);
    AfterPrefix(" " + name, TAIL);
    if n > 0 {
      assert " " + name == (" " + name[..n - 1]) + name[n - 1..];
      Reassociate(" " + name[..n - 1], name[n - 1..], TAIL);
      AfterPrefix(" " + name[..n - 1], name[n - 1..] + TAIL);
    }
  }

  lemma AfterPrefix(a: string, b: string)
    ensures (a + b)[|a|..] == b
  {
  }

  /******* The round trip *******/

  /** A full hash, a name and a date on one line, and no separator but the line feed in the message. */
  predicate Printable(c: FormattedCommit) {
    && IsSha(c.sha) && OneLine(c.name) && OneLine(c.date)
    && OnlyLineFeeds(c.message)
  }

  function PersonBack(c: FormattedCommit): Person {
    Person(ParsedName(c.name), if c.name == "" then "" else MAIL, c.date)
  }

  function CommitBack(c: FormattedCommit): GitCommit {
    GitCommit(c.sha, Trim(c.message), PersonBack(c), PersonBack(c))
  }

  lemma IndentedOneLine(text: string)
    requires OneLine(text)
    ensures var line := "    " + text; OneLine(line) && line != "" && line[0] == ' '
  {
    var line := "    " + text;
    forall i | 0 <= i < |line| ensures !IsBreak(line[i]) {
      if i < 4 {
        assert line[i] == ' ';
      } else {
        assert line[i] == text[i - 4];
      }
    }
  }

  lemma HeadOneLine(c: FormattedCommit)
    requires Printable(c)
    ensures OneLine("commit " + c.sha) && IsHeader("commit " + c.sha)
    ensures forall k :: 0 <= k < 5 ==> OneLine(HeadLines(c)[k]) && (HeadLines(c)[k] == "" || HeadLines(c)[k][0] != 'c')
  {
    var header := "commit " + c.sha;
    assert header[7..] == c.sha;
  }

  /** A line that does not start like a header. */
  predicate Still(line: string) {
    OneLine(line) && (line == "" || line[0] != 'c')
  }

  lemma PrintedOneLine(c: FormattedCommit)
    requires Printable(c)
    ensures forall k :: 0 <= k < |PrintedLines(c)| ==> OneLine(PrintedLines(c)[k])
    ensures forall k :: 1 <= k < |PrintedLines(c)| ==> PrintedLines(c)[k] == "" || PrintedLines(c)[k][0] != 'c'
    ensures IsHeader(PrintedLines(c)[0])
  {
    var lines, head, body := PrintedLines(c), HeadLines(c), SplitLines(c.message);
    HeadOneLine(c);
    PiecesOneLine(c.message);
    assert lines[0] == "commit " + c.sha;
    forall k | 1 <= k < |lines| ensures Still(lines[k]) {
      if k < 6 {
        assert lines[k] == head[k - 1];
      } else if k < |lines| - 1 {
        assert lines[k] == Indent(body)[k - 6];
        IndentedOneLine(body[k - 6]);
      }
    }
  }

  lemma ReadAuthor(d: Draft, name: string)
    requires OneLine(name)
    ensures ReadLine(d, "Author: " + name + TAIL) ==
            d.(author := if name == "" then d.author else d.author.(name := ParsedName(name), email := MAIL))
  {
    PersonReadBack("Author:", name);
    assert "Author:" + " " + name + TAIL == "Author: " + name + TAIL;
  }

  lemma ReadCommitter(d: Draft, name: string)
    requires OneLine(name)
    ensures ReadLine(d, "Commit: " + name + TAIL) ==
            d.(committer := if name == "" then d.committer else d.committer.(name := ParsedName(name), email := MAIL))
  {
    PersonReadBack("Commit:", name);
    var line := "Commit: " + name + TAIL;
    assert "Commit:" + " " + name + TAIL == line;
    assert line[0] == 'C';
  }

  lemma ReadDates(d: Draft, date: string)
    ensures ReadLine(d, "AuthorDate: " + date) == d.(author := d.author.(date := date))
    ensures ReadLine(d, "CommitDate: " + date) == d.(committer := d.committer.(date := date))
  {
    var line, other := "AuthorDate: " + date, "CommitDate: " + date;
    assert line[6] == 'D' && line[12..] == date;
    assert other[0] == 'C' && other[6] == 'D' && other[12..] == date;
  }

  lemma ReadHead(c: FormattedCommit, head: seq<string>)
    requires Printable(c)
    requires head == HeadLines(c)
    ensures ReadLines(EMPTY, head) == Draft(PersonBack(c), PersonBack(c), "", true)
  {
    var d1 := ReadLine(EMPTY, head[0]);
    var d2 := ReadLine(d1, head[1]);
    var d3 := ReadLine(d2, head[2]);
    var d4 := ReadLine(d3, head[3]);
    ReadAuthor(EMPTY, c.name);
    ReadDates(d1, c.date);
    ReadCommitter(d2, c.name);
    ReadDates(d3, c.date);
    FiveLines(EMPTY, head);
  }

  lemma FiveLines(d: Draft, ls: seq<string>)
    requires |ls| == 5
    ensures ReadLines(d, ls) == ReadLine(ReadLine(ReadLine(ReadLine(ReadLine(d, ls[0]), ls[1]), ls[2]), ls[3]), ls[4])
  {
    ReadLinesOfSum(d, ls[..4], ls[4..]);
    ReadLinesOfSum(d, ls[..3], [ls[3]]);
    ReadLinesOfSum(d, ls[..2], [ls[2]]);
    ReadLinesOfSum(d, ls[..1], [ls[1]]);
    assert ls == ls[..4] + ls[4..] && ls[..4] == ls[..3] + [ls[3]] && ls[..3] == ls[..2] + [ls[2]]
           && ls[..2] == ls[..1] + [ls[1]];
    assert ls[4..] == [ls[4]] && ls[..1] == [ls[0]];
    forall e: Draft, l: string ensures ReadLines(e, [l]) == ReadLine(e, l) {
      assert [l][1..] == [];
    }
  }

  /** The body of a printed commit and the two empty lines after it. */
  lemma ReadMessage(d: Draft, message: string)
    requires d.messageStarted && d.message == ""
    ensures ReadLines(d, Indent(SplitLines(message)) + ["", ""]) == d.(message := message + "\n")
  {
    var body := SplitLines(message);
    ReadLinesOfSum(d, Indent(body), ["", ""]);
    ReadBody(d, body);
    JoinOfSplit(message);
    JoinThenEnd(body);
    var whole := d.(message := message + "\n");
    assert "" + Unlines(body) == message + "\n";
    assert ["", ""][1..] == [""] && [""][1..] == [];
    assert ReadLines(whole, [""]) == whole;
  }

  lemma AfterHeader(c: FormattedCommit)
    ensures (PrintedLines(c) + [""])[0] == "commit " + c.sha
    ensures (PrintedLines(c) + [""])[1..] == HeadLines(c) + (Indent(SplitLines(c.message)) + ["", ""])
  {
  }

  lemma BlockReadBack(c: FormattedCommit)
    requires Printable(c)
    ensures ParsedLines(SplitLines(Unlines(PrintedLines(c)))) == Some(CommitBack(c))
  {
    var header, head, body := "commit " + c.sha, HeadLines(c), Indent(SplitLines(c.message)) + ["", ""];
    PrintedOneLine(c);
    SplitUnlines(PrintedLines(c));
    AfterHeader(c);
    var d := Draft(PersonBack(c), PersonBack(c), "", true);
    ReadHead(c, head);
    ReadLinesOfSum(EMPTY, head, body);
    ReadMessage(d, c.message);
    assert (c.message + "\n")[..|c.message|] == c.message;
    assert header[7..] == c.sha;
  }

  lemma HeaderStarts(line: string, rest: string, s: string)
    requires IsHeader(line) && s == line + "\n" + rest
    ensures HeaderAt(s, 0)
  {
    assert s[..7] == line[..7] && s[7..47] == line[7..] && s[47] == '\n';
  }

  lemma PrintedStart(cs: seq<FormattedCommit>)
    requires |cs| > 0 && Printable(cs[0])
    ensures HeaderAt(Printed(cs), 0)
  {
    var lines, more := PrintedLines(cs[0]), Printed(cs[1..]);
    PrintedOneLine(cs[0]);
    Reassociate(lines[0] + "\n", Unlines(lines[1..]), more);
    HeaderStarts(lines[0], Unlines(lines[1..]) + more, Printed(cs));
  }

  lemma FirstReadBack(c: FormattedCommit, a: string, rest: string)
    requires Printable(c) && a == Unlines(PrintedLines(c)) && (rest == "" || HeaderAt(rest, 0))
    ensures Parsed(a + rest) == [CommitBack(c)] + Parsed(rest)
  {
    PrintedOneLine(c);
    UnlinesQuiet(PrintedLines(c));
    UnlinesEnds(PrintedLines(c));
    BlockCut(a, rest);
    BlockReadBack(c);
    assert ([a] + Blocks(rest))[1..] == Blocks(rest);
  }

  /** Parsing a printed log gives the commits back in order, each with its hash, name, date and trimmed
      message, whatever its message lines look like. */
  lemma {:induction false} RoundTrip(cs: seq<FormattedCommit>)
    requires forall k :: 0 <= k < |cs| ==> Printable(cs[k])
    ensures |Parsed(Printed(cs))| == |cs|
    ensures forall k :: 0 <= k < |cs| ==> Parsed(Printed(cs))[k] == CommitBack(cs[k])
  {
    if cs != [] {
      RoundTrip(cs[1..]);
      if |cs| > 1 {
        PrintedStart(cs[1..]);
      }
      FirstReadBack(cs[0], Unlines(PrintedLines(cs[0])), Printed(cs[1..]));
    }
  }

  lemma {:induction false} UnlinesEnds(lines: seq<string>)
    requires |lines| > 0
    ensures var s := Unlines(lines); s != "" && s[|s| - 1] == '\n'
  {
    if |lines| > 1 {
      UnlinesEnds(lines[1..]);
    }
  }

  /** The names that survive printing and parsing, exactly. */
  lemma NameSurvivesIff(cs: seq<FormattedCommit>, k: nat)
    requires k < |cs| && forall i :: 0 <= i < |cs| ==> Printable(cs[i])
    ensures |Parsed(Printed(cs))| == |cs|
    ensures Parsed(Printed(cs))[k].author.name == cs[k].name
       <==> cs[k].name == "" || !IsSpace(cs[k].name[0]) || |cs[k].name| == 1
  {
    RoundTrip(cs);
  }

  /******* The texts themselves *******/

  /** The text printed for a commit whose message is one line. */
  lemma PrintedText(c: FormattedCommit)
    requires forall i :: 0 <= i < |c.message| ==> c.message[i] != '\n'
    ensures Printed([c]) == Unlines(["commit " + c.sha, "Author: " + c.name + " <unknown@email>",
                                     "AuthorDate: " + c.date, "Commit: " + c.name + " <unknown@email>",
                                     "CommitDate: " + c.date, "", "    " + c.message, ""])
  {
    NoLineFeed(c.message);
    assert [c][1..] == [];
    assert Indent([c.message]) == ["    " + c.message];
    assert PrintedLines(c) == ["commit " + c.sha, "Author: " + c.name + " <unknown@email>",
                               "AuthorDate: " + c.date, "Commit: " + c.name + " <unknown@email>",
                               "CommitDate: " + c.date, "", "    " + c.message, ""];
  }

  lemma {:induction false} NoLineFeed(s: string)
    requires forall i :: 0 <= i < |s| ==> s[i] != '\n'
    ensures SplitLines(s) == [s]
  {
    if s != "" {
      NoLineFeed(s[1..]);
      assert [s[0]] + s[1..] == s;
    }
  }

  /** A name and an address as git prints them. */
  predicate Readable(p: Person) {
    && OneLine(p.name) && p.name != "" && !IsSpace(p.name[0]) && OneLine(p.email) && p.email != ""
    && forall i :: 0 <= i < |p.email| - 1 ==> p.email[i] != ' ' || p.email[i + 1] != '<'
  }

  lemma {:induction false} LastBracket(name: string, email: string, body: string, i: nat)
    requires OneLine(name) && name != "" && OneLine(email) && email != ""
    requires forall j :: 0 <= j < |email| - 1 ==> email[j] != ' ' || email[j + 1] != '<'
    requires body == name + (" <" + email + ">") && |name| <= i <= |body|
    ensures LastPerson(body, i) == Some((name, email))
  {
    var tail := " <" + email + ">";
    assert body[..|name|] == name && body[|name| + 2..|body| - 1] == email;
    if i > |name| {
      if i + 3 < |body| {
        assert body[i] == tail[i - |name|] && body[i + 1] == tail[i + 1 - |name|];
        if i - |name| >= 2 {
          assert tail[i - |name|] == email[i - |name| - 2] && tail[i + 1 - |name|] == email[i - |name| - 1];
        }
      }
      LastBracket(name, email, body, i - 1);
    }
  }

  /** Name and address come back, whatever white space the tag is padded with. */
  lemma GitPersonRead(tag: string, padding: string, p: Person, line: string)
    requires Readable(p) && padding != "" && forall i :: 0 <= i < |padding| ==> IsSpace(padding[i])
    requires line == tag + (padding + (p.name + (" <" + p.email + ">")))
    ensures StartsWith(line, tag) && MatchPerson(tag, line) == Some((p.name, p.email))
  {
    var body := p.name + (" <" + p.email + ">");
    AfterPrefix(tag, padding + body);
    Rest(padding, body, |padding|, padding + body);
    LastBracket(p.name, p.email, body, |body|);
  }

  /** The line is the tag, white space, a name, and an address in brackets. */
  predicate Written(tag: string, line: string, padding: string, name: string, email: string) {
    && line == tag + (padding + (name + (" <" + email + ">")))
    && padding != "" && (forall i :: 0 <= i < |padding| ==> IsSpace(padding[i]))
    && name != "" && OneLine(name) && email != "" && OneLine(email)
  }

  lemma PersonParts(body: string, i: nat)
    requires PersonAt(body, i)
    ensures body == body[..i] + (" <" + body[i + 2..|body| - 1] + ">")
  {
    assert body[i..] == " <" + body[i + 2..|body| - 1] + ">";
  }

  lemma {:induction false} LastPersonAt(body: string, i: nat) returns (j: nat)
    requires LastPerson(body, i).Some?
    ensures j <= i && PersonAt(body, j) && LastPerson(body, i).value == (body[..j], body[j + 2..|body| - 1])
  {
    if PersonAt(body, i) {
      j := i;
    } else {
      j := LastPersonAt(body, i - 1);
    }
  }

  lemma {:induction false} LastPersonExists(body: string, i: nat, j: nat)
    requires j <= i && PersonAt(body, j)
    ensures LastPerson(body, i).Some?
  {
    if j < i {
      LastPersonExists(body, i - 1, j);
    }
  }

  lemma {:induction false} PersonAfterAt(rest: string, k: nat) returns (n: nat, j: nat)
    requires k <= |rest| && PersonAfter(rest, k).Some?
    ensures 0 < n <= k && PersonAt(rest[n..], j)
    ensures PersonAfter(rest, k).value == (rest[n..][..j], rest[n..][j + 2..|rest[n..]| - 1])
  {
    if LastPerson(rest[k..], |rest| - k).Some? {
      n := k;
      j := LastPersonAt(rest[k..], |rest| - k);
    } else {
      n, j := PersonAfterAt(rest, k - 1);
    }
  }

  lemma {:induction false} PersonAfterExists(rest: string, k: nat, n: nat, j: nat)
    requires 0 < n <= k <= |rest| && j <= |rest| - n && PersonAt(rest[n..], j)
    ensures PersonAfter(rest, k).Some?
  {
    if n < k {
      PersonAfterExists(rest, k - 1, n, j);
    } else {
      LastPersonExists(rest[n..], |rest| - n, j);
    }
  }

  /** The author pattern matches exactly the lines that are so written, and what it finds is written there. */
  lemma PersonMatchIff(tag: string, line: string)
    requires StartsWith(line, tag)
    ensures MatchPerson(tag, line).Some? <==> exists padding, name, email :: Written(tag, line, padding, name, email)
    ensures MatchPerson(tag, line).Some? ==>
              exists padding :: Written(tag, line, padding, MatchPerson(tag, line).value.0,
                                        MatchPerson(tag, line).value.1)
  {
    var rest := line[|tag|..];
    if MatchPerson(tag, line).Some? {
      var n, j := PersonAfterAt(rest, LeadingSpaces(rest));
      FoundIsWritten(tag, line, rest, n, j);
    }
    if padding, name, email :| Written(tag, line, padding, name, email) {
      WrittenIsFound(tag, line, padding, name, email);
    }
  }

  lemma FoundIsWritten(tag: string, line: string, rest: string, n: nat, j: nat)
    requires line == tag + rest && 0 < n <= LeadingSpaces(rest) && PersonAt(rest[n..], j)
    ensures Written(tag, line, rest[..n], rest[n..][..j], rest[n..][j + 2..|rest[n..]| - 1])
  {
    PersonParts(rest[n..], j);
    assert rest == rest[..n] + rest[n..];
  }

  lemma WrittenIsFound(tag: string, line: string, padding: string, name: string, email: string)
    requires Written(tag, line, padding, name, email)
    ensures StartsWith(line, tag) && MatchPerson(tag, line).Some?
  {
    var body := name + (" <" + email + ">");
    var rest := padding + body;
    AfterPrefix(tag, rest);
    AfterPrefix(padding, body);
    assert body[..|name|] == name && body[|name| + 2..|body| - 1] == email;
    assert PersonAt(body, |name|);
    LeadAtLeast(rest, |padding|);
    PersonAfterExists(rest, LeadingSpaces(rest), |padding|, |name|);
  }

  lemma LeadAtLeast(s: string, n: nat)
    requires n <= |s| && forall i :: 0 <= i < n ==> IsSpace(s[i])
    ensures n <= LeadingSpaces(s)
  {
  }

  /** The lines in which git prints a commit; `padding` aligns the names. */
  function GitLines(sha: string, padding: string, author: Person, committer: Person, text: seq<string>): seq<string> {
    ["commit " + sha,
     "Author:" + (padding + (author.name + (" <" + author.email + ">"))), "AuthorDate: " + author.date,
     "Commit:" + (padding + (committer.name + (" <" + committer.email + ">"))), "CommitDate: " + committer.date,
     ""] + Indent(text)
  }

  lemma GitHead(d: Draft, head: seq<string>, padding: string, author: Person, committer: Person)
    requires Readable(author) && Readable(committer)
    requires padding != "" && forall i :: 0 <= i < |padding| ==> IsSpace(padding[i])
    requires d == EMPTY && head == GitLines("", padding, author, committer, [])[1..]
    ensures ReadLines(d, head) == Draft(author, committer, "", true)
  {
    GitPersonRead("Author:", padding, author, head[0]);
    GitPersonRead("Commit:", padding, committer, head[2]);
    var d1 := ReadLine(d, head[0]);
    assert d1 == d.(author := Person(author.name, author.email, ""));
    var d2 := ReadLine(d1, head[1]);
    ReadDates(d1, author.date);
    assert d2 == d.(author := author);
    assert head[2][0] == 'C';
    var d3 := ReadLine(d2, head[2]);
    assert d3 == d2.(committer := Person(committer.name, committer.email, ""));
    ReadDates(d3, committer.date);
    FiveLines(d, head);
  }

  /** A commit as git logs it. */
  datatype GitEntry = GitEntry(sha: string, author: Person, committer: Person, text: seq<string>)

  predicate LoggedByGit(e: GitEntry) {
    && IsSha(e.sha) && Readable(e.author) && Readable(e.committer)
    && OneLine(e.author.date) && OneLine(e.committer.date)
    && forall k :: 0 <= k < |e.text| ==> OneLine(e.text[k])
  }

  predicate Blank(padding: string) {
    padding != "" && OneLine(padding) && forall i :: 0 <= i < |padding| ==> IsSpace(padding[i])
  }

  function CommitOf(e: GitEntry): GitCommit {
    GitCommit(e.sha, Trim(Unlines(e.text)), e.author, e.committer)
  }

  /** The lines of one entry, with an empty line behind. */
  function EntryLines(e: GitEntry, padding: string): seq<string> {
    GitLines(e.sha, padding, e.author, e.committer, e.text) + [""]
  }

  function GitText(es: seq<GitEntry>, padding: string): string {
    if es == [] then "" else Unlines(EntryLines(es[0], padding)) + GitText(es[1..], padding)
  }

  lemma EntryRead(e: GitEntry, padding: string)
    requires LoggedByGit(e) && Blank(padding)
    ensures ParsedLines(EntryLines(e, padding) + [""]) == Some(CommitOf(e))
  {
    var lines, head := EntryLines(e, padding) + [""], GitLines("", padding, e.author, e.committer, [])[1..];
    var d := Draft(e.author, e.committer, "", true);
    HeaderIff(lines[0]);
    assert lines[0][7..] == e.sha;
    assert lines[1..] == head + (Indent(e.text) + ["", ""]);
    GitHead(EMPTY, head, padding, e.author, e.committer);
    ReadLinesOfSum(EMPTY, head, Indent(e.text) + ["", ""]);
    ReadLinesOfSum(d, Indent(e.text), ["", ""]);
    ReadBody(d, e.text);
    assert "" + Unlines(e.text) == Unlines(e.text);
    assert ["", ""][1..] == [""] && [""][1..] == [];
    var whole := d.(message := Unlines(e.text));
    assert ReadLines(whole, [""]) == whole;
  }

  lemma PersonOneLine(tag: string, padding: string, p: Person)
    requires OneLine(tag) && OneLine(padding) && Readable(p)
    ensures OneLine(tag + (padding + (p.name + (" <" + p.email + ">"))))
  {
    OneLineSum(" <", p.email);
    OneLineSum(" <" + p.email, ">");
    OneLineSum(p.name, " <" + p.email + ">");
    OneLineSum(padding, p.name + (" <" + p.email + ">"));
    OneLineSum(tag, padding + (p.name + (" <" + p.email + ">")));
  }

  lemma OneLineSum(a: string, b: string)
    requires OneLine(a) && OneLine(b)
    ensures OneLine(a + b)
  {
  }

  lemma EntryStill(e: GitEntry, padding: string)
    requires LoggedByGit(e) && Blank(padding)
    ensures OneLine(EntryLines(e, padding)[0])
    ensures forall k :: 1 <= k < |EntryLines(e, padding)| ==> Still(EntryLines(e, padding)[k])
  {
    var lines := EntryLines(e, padding);
    PersonOneLine("Author:", padding, e.author);
    PersonOneLine("Commit:", padding, e.committer);
    forall k | 6 <= k < |lines| ensures Still(lines[k]) {
      if k < |lines| - 1 {
        assert lines[k] == Indent(e.text)[k - 6];
        IndentedOneLine(e.text[k - 6]);
      }
    }
    assert lines[1][0] == 'A' && lines[2][0] == 'A' && lines[3][0] == 'C' && lines[4][0] == 'C';
    OneLineSum("AuthorDate: ", e.author.date);
    OneLineSum("CommitDate: ", e.committer.date);
  }

  lemma EntryStarts(e: GitEntry, padding: string, rest: string)
    requires IsSha(e.sha)
    ensures HeaderAt(Unlines(EntryLines(e, padding)) + rest, 0)
  {
    var lines := EntryLines(e, padding);
    HeaderIff(lines[0]);
    Reassociate(lines[0] + "\n", Unlines(lines[1..]), rest);
    HeaderStarts(lines[0], Unlines(lines[1..]) + rest, Unlines(lines) + rest);
  }

  lemma FirstEntryRead(e: GitEntry, padding: string, a: string, rest: string)
    requires LoggedByGit(e) && Blank(padding) && a == Unlines(EntryLines(e, padding))
    requires rest == "" || HeaderAt(rest, 0)
    ensures Parsed(a + rest) == [CommitOf(e)] + Parsed(rest)
  {
    var lines := EntryLines(e, padding);
    EntryStill(e, padding);
    UnlinesQuiet(lines);
    UnlinesEnds(lines);
    BlockCut(a, rest);
    SplitUnlines(lines);
    EntryRead(e, padding);
    assert ([a] + Blocks(rest))[1..] == Blocks(rest);
  }

  /** A log in git's own format, with whatever authors, committers, alignment and messages, is read commit by commit as
      it stands there. */
  lemma {:induction false} ReadsGitLog(es: seq<GitEntry>, padding: string)
    requires Blank(padding) && forall k :: 0 <= k < |es| ==> LoggedByGit(es[k])
    ensures |Parsed(GitText(es, padding))| == |es|
    ensures forall k :: 0 <= k < |es| ==> Parsed(GitText(es, padding))[k] == CommitOf(es[k])
  {
    if es != [] {
      ReadsGitLog(es[1..], padding);
      if |es| > 1 {
        EntryStarts(es[1], padding, GitText(es[1..][1..], padding));
      }
      FirstEntryRead(es[0], padding, Unlines(EntryLines(es[0], padding)), GitText(es[1..], padding));
    }
  }

  /** Only a line of `commit` and 40 lower-case hexadecimal digits starts a commit; anything else is not read. */
  lemma HeaderIff(line: string)
    ensures IsHeader(line) <==> |line| == 47 && line[..7] == "commit "
                                && forall i :: 7 <= i < 47 ==> '0' <= line[i] <= '9' || 'a' <= line[i] <= 'f'
    ensures forall rest :: ParsedLines([line] + rest).Some? <==> IsHeader(line)
  {
    if |line| == 47 {
      assert forall i :: 0 <= i < 40 ==> line[7..][i] == line[i + 7];
    }
  }

  /** Trimming takes white space off both ends, all of it and nothing else. */
  lemma TrimMeaning(s: string) returns (before: string, after: string)
    ensures s == before + Trim(s) + after
    ensures forall c :: c in before || c in after ==> IsSpace(c)
    ensures Trim(s) != "" ==> !IsSpace(Trim(s)[0]) && !IsSpace(Trim(s)[|Trim(s)| - 1])
  {
    after := EndTrimmed(s);
    before := StartTrimmed(TrimEnd(s));
  }

  lemma {:induction false} StartTrimmed(s: string) returns (before: string)
    ensures s == before + TrimStart(s) && forall c :: c in before ==> IsSpace(c)
    ensures TrimStart(s) != "" ==> !IsSpace(TrimStart(s)[0]) && TrimStart(s)[|TrimStart(s)| - 1] == s[|s| - 1]
  {
    before := "";
    if s != "" && IsSpace(s[0]) {
      var rest := StartTrimmed(s[1..]);
      before := [s[0]] + rest;
    }
  }

  lemma {:induction false} EndTrimmed(s: string) returns (after: string)
    ensures s == TrimEnd(s) + after && forall c :: c in after ==> IsSpace(c)
    ensures TrimEnd(s) != "" ==> !IsSpace(TrimEnd(s)[|TrimEnd(s)| - 1])
  {
    after := "";
    if s != "" && IsSpace(s[|s| - 1]) {
      var rest := EndTrimmed(s[..|s| - 1]);
      after := rest + [s[|s| - 1]];
    }
  }
}
