/** Lines and fields of text, as the configuration parsers cut them. */
module Text {
  import opened Faults

  predicate IsSpace(c: char) {
    c == ' ' || '\t' <= c <= '\r' || c == '\U{0085}' || c == '\U{00A0}' || c == '\U{1680}'
      || '\U{2000}' <= c <= '\U{200A}'
    || c == '\U{2028}' || c == '\U{2029}' || c == '\U{202F}' || c == '\U{205F}' || c == '\U{3000}'
  }

  /** strings.TrimSpace. */
  function Trim(s: string): (t: string)
    ensures |t| <= |s|
    ensures t != "" ==> !IsSpace(t[0]) && !IsSpace(t[|t| - 1])
  {
    if s == "" then ""
    else if IsSpace(s[0]) then Trim(s[1..])
    else if IsSpace(s[|s| - 1]) then Trim(s[..|s| - 1])
    else s
  }

  lemma TrimTwice(s: string)
    ensures Trim(Trim(s)) == Trim(s)
  {
  }

  lemma {:induction false} TrimRight(s: string, c: char)
    requires IsSpace(c)
    ensures Trim(s + [c]) == Trim(s)
  {
    if s == "" {
      assert Trim([c]) == Trim([c][1..]);
    } else if IsSpace(s[0]) {
      assert (s + [c])[1..] == s[1..] + [c];
      TrimRight(s[1..], c);
    } else {
      assert (s + [c])[..|s|] == s;
    }
  }

  lemma {:induction false} TrimDropsSpace(s: string, t: string)
    requires forall k :: 0 <= k < |s| ==> IsSpace(s[k])
    ensures Trim(s + t) == Trim(t) && Trim(t + s) == Trim(t)
  {
    if s == "" {
      assert s + t == t && t + s == t;
    } else {
      assert (s + t)[1..] == s[1..] + t;
      assert t + s == (t + s[..|s| - 1]) + [s[|s| - 1]];
      TrimRight(t + s[..|s| - 1], s[|s| - 1]);
      TrimDropsSpace(s[1..], t);
      TrimDropsSpace(s[..|s| - 1], t);
    }
  }

  lemma Regroup(a: seq<string>, b: seq<string>, c: seq<string>)
    ensures (a + b) + c == a + (b + c)
  {
  }

  // ------------------------------------------------------------------- lines

  /** strings.Split at the separator. */
  function Split(s: string, sep: char): (parts: seq<string>)
    ensures |parts| > 0
  {
    if s == "" then [""]
    else
      var rest := Split(s[1..], sep);
      if s[0] == sep then [""] + rest else [[s[0]] + rest[0]] + rest[1..]
  }

  /** strings.Join. */
  function Join(parts: seq<string>, sep: string): string {
    if parts == [] then "" else if |parts| == 1 then parts[0] else parts[0] + sep + Join(parts[1..], sep)
  }

  lemma {:induction false} SplitWhole(s: string, sep: char)
    requires sep !in s
    ensures Split(s, sep) == [s]
  {
    if s != "" {
      SplitWhole(s[1..], sep);
      assert s == [s[0]] + s[1..];
    }
  }

  /** A separator splits where it stands. */
  lemma {:induction false} SplitAt(a: string, b: string, sep: char)
    ensures Split(a + [sep] + b, sep) == Split(a, sep) + Split(b, sep)
  {
    if a == "" {
      assert a + [sep] + b == [sep] + b && ([sep] + b)[1..] == b;
    } else {
      assert (a + [sep] + b)[1..] == a[1..] + [sep] + b && (a + [sep] + b)[0] == a[0];
      SplitAt(a[1..], b, sep);
    }
  }

  /** Splitting undoes joining. */
  lemma {:induction false} SplitOfJoin(parts: seq<string>, sep: char)
    requires parts != [] && forall k :: 0 <= k < |parts| ==> sep !in parts[k]
    ensures Split(Join(parts, [sep]), sep) == parts
  {
    SplitWhole(parts[0], sep);
    if |parts| == 1 {
      assert parts == [parts[0]];
    } else {
      SplitOfJoin(parts[1..], sep);
      SplitAt(parts[0], Join(parts[1..], [sep]), sep);
      assert parts == [parts[0]] + parts[1..];
    }
  }

  lemma {:induction false} PartsLackSeparator(s: string, sep: char)
    ensures forall k :: 0 <= k < |Split(s, sep)| ==> sep !in Split(s, sep)[k]
  {
    if s != "" {
      PartsLackSeparator(s[1..], sep);
    }
  }

  /** The last part, one character longer. */
  function Longer(parts: seq<string>, c: char): seq<string>
    requires parts != []
  {
    parts[..|parts| - 1] + [parts[|parts| - 1] + [c]]
  }

  lemma LongerBehind(first: string, rest: seq<string>, c: char)
    requires rest != []
    ensures Longer([first] + rest, c) == [first] + Longer(rest, c)
  {
  }

  lemma LongerInFront(a: char, parts: seq<string>, c: char)
    requires parts != []
    ensures var l := Longer(parts, c);
            Longer([[a] + parts[0]] + parts[1..], c) == [[a] + l[0]] + l[1..]
  {
    if |parts| == 1 {
      assert [a] + (parts[0] + [c]) == ([a] + parts[0]) + [c];
    }
  }

  lemma {:induction false} SplitSnoc(s: string, c: char, sep: char)
    requires c != sep
    ensures Split(s + [c], sep) == Longer(Split(s, sep), c)
  {
    if s == "" {
      SplitWhole([c], sep);
      assert s + [c] == [c];
    } else {
      assert (s + [c])[1..] == s[1..] + [c];
      SplitSnoc(s[1..], c, sep);
      if s[0] == sep {
        LongerBehind("", Split(s[1..], sep), c);
      } else {
        LongerInFront(s[0], Split(s[1..], sep), c);
      }
    }
  }

  /** strings.Cut. */
  function IndexOf(s: string, sep: char): (at: Option<nat>)
    ensures at.Some? ==> at.value < |s| && s[at.value] == sep && sep !in s[..at.value]
    ensures at.None? ==> sep !in s
  {
    if s == "" then None
    else if s[0] == sep then Some(0)
    else match IndexOf(s[1..], sep) case Some(k) => Some(k + 1) case None => None
  }

  lemma {:induction false} IndexAfter(a: string, b: string, sep: char)
    requires sep !in a
    ensures IndexOf(a + [sep] + b, sep) == Some(|a|)
  {
    if a != "" {
      assert (a + [sep] + b)[1..] == a[1..] + [sep] + b;
      IndexAfter(a[1..], b, sep);
    }
  }

  predicate HasPrefix(s: string, prefix: string) {
    prefix <= s
  }

  predicate HasSuffix(s: string, suffix: string) {
    |suffix| <= |s| && s[|s| - |suffix|..] == suffix
  }

  function Lower(c: char): char {
    if 'A' <= c <= 'Z' then (c as int + 32) as char else c
  }

  /** strings.ToLower on ASCII letters. */
  function ToLower(s: string): string {
    seq(|s|, k requires 0 <= k < |s| => Lower(s[k]))
  }

  /** strings.EqualFold on ASCII letters. */
  predicate EqualFold(a: string, b: string) {
    ToLower(a) == ToLower(b)
  }

  // ------------------------------------------------- what blank space does not change

  /** The lines of a text, trimmed, without the blank ones. */
  function Normal(lines: seq<string>): seq<string> {
    if lines == [] then []
    else (if Trim(lines[0]) == "" then [] else [Trim(lines[0])]) + Normal(lines[1..])
  }

  lemma {:induction false} NormalSplits(a: seq<string>, b: seq<string>)
    ensures Normal(a + b) == Normal(a) + Normal(b)
  {
    if a == [] {
      assert a + b == b;
    } else {
      assert (a + b)[1..] == a[1..] + b;
      NormalSplits(a[1..], b);
    }
  }

  lemma NormalOfOne(line: string)
    ensures Normal([line]) == if Trim(line) == "" then [] else [Trim(line)]
  {
  }

  lemma NormalSame(a: seq<string>, x: string, y: string, b: seq<string>)
    requires Trim(x) == Trim(y)
    ensures Normal(a + [x] + b) == Normal(a + [y] + b)
  {
    NormalSplits(a + [x], b);
    NormalSplits(a, [x]);
    NormalSplits(a + [y], b);
    NormalSplits(a, [y]);
    NormalOfOne(x);
    NormalOfOne(y);
  }

  lemma SpaceInFront(c: char, s: string)
    requires IsSpace(c)
    ensures Normal(Split([c] + s, '\n')) == Normal(Split(s, '\n'))
  {
    var rest := Split(s, '\n');
    assert ([c] + s)[1..] == s;
    if c == '\n' {
      NormalSplits([""], rest);
    } else {
      assert ([c] + rest[0])[1..] == rest[0];
      NormalSame([], [c] + rest[0], rest[0], rest[1..]);
      assert [] + [rest[0]] + rest[1..] == rest;
      assert [] + [[c] + rest[0]] + rest[1..] == Split([c] + s, '\n');
    }
  }

  lemma SpaceBehind(s: string, c: char)
    requires IsSpace(c)
    ensures Normal(Split(s + [c], '\n')) == Normal(Split(s, '\n'))
  {
    var p := Split(s, '\n');
    if c == '\n' {
      assert s + [c] == s + ['\n'] + "";
      SplitAt(s, "", '\n');
      NormalSplits(p, [""]);
    } else {
      var n := |p| - 1;
      SplitSnoc(s, c, '\n');
      TrimRight(p[n], c);
      NormalSame(p[..n], p[n] + [c], p[n], []);
      assert p[..n] + [p[n]] + [] == p;
      assert p[..n] + [p[n] + [c]] + [] == Split(s + [c], '\n');
    }
  }

  /** Trimming a text changes none of its lines that matter. */
  lemma {:induction false} TrimKeepsLines(s: string)
    ensures Normal(Split(Trim(s), '\n')) == Normal(Split(s, '\n'))
    decreases |s|
  {
    if s == "" {
    } else if IsSpace(s[0]) {
      TrimKeepsLines(s[1..]);
      SpaceInFront(s[0], s[1..]);
      assert s == [s[0]] + s[1..];
    } else if IsSpace(s[|s| - 1]) {
      TrimKeepsLines(s[..|s| - 1]);
      SpaceBehind(s[..|s| - 1], s[|s| - 1]);
      assert s == s[..|s| - 1] + [s[|s| - 1]];
    }
  }

  // ------------------------------------------------------------ written line by line

  function Lines(text: string): seq<string> {
    Split(text, '\n')
  }

  function Terminated(lines: seq<string>): string {
    if lines == [] then "" else lines[0] + "\n" + Terminated(lines[1..])
  }

  lemma {:induction false} TerminatedSplits(a: seq<string>, b: seq<string>)
    ensures Terminated(a + b) == Terminated(a) + Terminated(b)
  {
    if a == [] {
      assert a + b == b;
    } else {
      assert (a + b)[1..] == a[1..] + b;
      TerminatedSplits(a[1..], b);
    }
  }

  lemma {:induction false} LinesOfTerminated(lines: seq<string>)
    requires forall k :: 0 <= k < |lines| ==> '\n' !in lines[k]
    ensures Lines(Terminated(lines)) == lines + [""]
  {
    if lines != [] {
      LinesOfTerminated(lines[1..]);
      SplitAt(lines[0], Terminated(lines[1..]), '\n');
      SplitWhole(lines[0], '\n');
      assert Terminated(lines) == lines[0] + ['\n'] + Terminated(lines[1..]);
      assert lines == [lines[0]] + lines[1..];
    }
  }

  /** One line more in a builder. */
  method WriteLine(b: string, ghost head: string, ghost lines: seq<string>, line: string) returns (out: string)
    requires b == head + Terminated(lines)
    ensures out == head + Terminated(lines + [line])
  {
    TerminatedSplits(lines, [line]);
    assert Terminated([line]) == line + "\n" + Terminated([]);
    out := b + line + "\n";
  }
}
