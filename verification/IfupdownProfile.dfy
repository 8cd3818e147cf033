/** ifupdown stanzas: rendered, parsed, and made known to the main file by an include. */
module IfupdownProfile {
  import opened Faults
  import opened Text

  datatype Stanza = Stanza(iface: string, family: string, method_: string,
                           address: string, netmask: string, gateway: string, dns: seq<string>)

  // -------------------------------------------------------------------- words

  predicate Word(s: string) {
    s != "" && forall k :: 0 <= k < |s| ==> !IsSpace(s[k])
  }

  function WordLength(s: string): (n: nat)
    ensures n <= |s| && (forall k :: 0 <= k < n ==> !IsSpace(s[k])) && (n < |s| ==> IsSpace(s[n]))
  {
    if s == "" || IsSpace(s[0]) then 0 else 1 + WordLength(s[1..])
  }

  /** strings.Fields. */
  function Words(s: string): (words: seq<string>)
    ensures forall k :: 0 <= k < |words| ==> Word(words[k])
    decreases |s|
  {
    if s == "" then []
    else if IsSpace(s[0]) then Words(s[1..])
    else [s[..WordLength(s)]] + Words(s[WordLength(s)..])
  }

  lemma {:induction false} WordEnds(w: string, rest: string)
    requires Word(w) && (rest == "" || IsSpace(rest[0]))
    ensures WordLength(w + rest) == |w|
  {
    assert (w + rest)[0] == w[0] && (w + rest)[1..] == w[1..] + rest;
    if |w| > 1 {
      WordEnds(w[1..], rest);
    } else {
      assert w[1..] + rest == rest;
    }
  }

  lemma WordsSplit(w: string, rest: string)
    requires Word(w) && (rest == "" || IsSpace(rest[0]))
    ensures Words(w + rest) == [w] + Words(rest)
  {
    WordEnds(w, rest);
    assert (w + rest)[..|w|] == w && (w + rest)[|w|..] == rest && (w + rest)[0] == w[0];
  }

  lemma WordsAfterSpace(rest: string)
    ensures Words(" " + rest) == Words(rest)
  {
    assert (" " + rest)[1..] == rest;
  }

  /** Words joined by one blank are those words again. */
  lemma {:induction false} WordsOfJoin(words: seq<string>)
    requires forall k :: 0 <= k < |words| ==> Word(words[k])
    ensures Words(Join(words, " ")) == words
  {
    if |words| == 1 {
      WordsSplit(words[0], "");
      assert words[0] + "" == words[0] && words == [words[0]];
    } else if |words| > 1 {
      WordsOfJoin(words[1..]);
      WordInFront(words[0], Join(words[1..], " "));
      assert words == [words[0]] + words[1..];
    }
  }

  lemma WordInFront(w: string, rest: string)
    requires Word(w)
    ensures Words(w + " " + rest) == [w] + Words(rest)
  {
    WordsSplit(w, " " + rest);
    WordsAfterSpace(rest);
    assert w + " " + rest == w + (" " + rest);
  }

  // ------------------------------------------------------------------- parsing

  /** Finished stanzas, and the one that lines are still added to. */
  datatype Scan = Scan(done: seq<Stanza>, current: Option<Stanza>)

  function Flush(s: Scan): Scan {
    if s.current.Some? then Scan(s.done + [s.current.value], None) else s
  }

  datatype Key = Address | Netmask | Gateway | Dns

  function NameOf(key: Key): string {
    match key
    case Address => "address"
    case Netmask => "netmask"
    case Gateway => "gateway"
    case Dns => "dns-nameservers"
  }

  function KeyOf(word: string): Option<Key> {
    if EqualFold(word, NameOf(Address)) then Some(Address)
    else if EqualFold(word, NameOf(Netmask)) then Some(Netmask)
    else if EqualFold(word, NameOf(Gateway)) then Some(Gateway)
    else if EqualFold(word, NameOf(Dns)) then Some(Dns)
    else None
  }

  function Assign(key: Key, value: string, s: Stanza): Stanza {
    match key
    case Address => if s.address == "" then s.(address := value) else s
    case Netmask => s.(netmask := value)
    case Gateway => s.(gateway := value)
    case Dns => s.(dns := s.dns + Words(value))
  }

  predicate Outside(word: string) {
    word == "auto" || word == "allow-auto" || word == "allow-hotplug" || word == "source" || word == "source-directory"
    || word == "mapping"
  }

  predicate Comment(line: string) {
    line == "" || HasPrefix(line, "#")
  }

  function Step(raw: string, s: Scan): Scan {
    var line := Trim(raw);
    if Comment(line) then s
    else
      var words := Words(line);
      if words == [] then s
      else if words[0] == "iface" then
        Flush(s).(current := if |words| >= 4 then Some(Stanza(words[1], words[2], words[3], "", "", "", [])) else None)
      else if Outside(words[0]) || s.current.None? then s
      else match KeyOf(words[0])
        case None => s
        case Some(key) => s.(current := Some(Assign(key, Trim(line[Min(|words[0]|, |line|)..]), s.current.value)))
  }

  function Min(a: nat, b: nat): nat {
    if a < b then a else b
  }

  function Run(lines: seq<string>, s: Scan): Scan {
    if lines == [] then s else Run(lines[1..], Step(lines[0], s))
  }

  const START := Scan([], None)

  function Stanzas(content: string): seq<Stanza> {
    Flush(Run(Lines(content), START)).done
  }

  /** parseIfupdownFile. */
  method Parse(content: string) returns (stanzas: seq<Stanza>)
    ensures stanzas == Stanzas(content)
  {
    var lines, s := Lines(content), START;
    assert lines[0..] == lines;
    for i := 0 to |lines|
      invariant Run(lines, START) == Run(lines[i..], s)
    {
      assert lines[i..][1..] == lines[i + 1..];
      s := Step(lines[i], s);
    }
    stanzas := Flush(s).done;
  }

  lemma {:induction false} RunSplits(a: seq<string>, b: seq<string>, s: Scan)
    ensures Run(a + b, s) == Run(b, Run(a, s))
  {
    if a == [] {
      assert a + b == b;
    } else {
      assert (a + b)[1..] == a[1..] + b;
      RunSplits(a[1..], b, Step(a[0], s));
    }
  }

  lemma RunOne(line: string, s: Scan)
    ensures Run([line], s) == Step(line, s)
  {
    assert [line][1..] == [];
  }

  // ------------------------------------------------------ what a file means

  predicate Opens(line: string) {
    var t := Trim(line);
    !Comment(t) && Words(t) != [] && Words(t)[0] == "iface"
  }

  datatype Item = Item(key: Key, value: string)

  /** The option that a line sets, if it sets any. */
  function ItemOf(line: string): Option<Item> {
    var t := Trim(line);
    if Comment(t) || Words(t) == [] || Outside(Words(t)[0]) || Words(t)[0] == "iface" then None
    else match KeyOf(Words(t)[0])
      case None => None
      case Some(key) => Some(Item(key, Trim(t[Min(|Words(t)[0]|, |t|)..])))
  }

  predicate Sets(line: string, key: Key) {
    ItemOf(line).Some? && ItemOf(line).value.key == key
  }

  /** The first value that is not empty. */
  function FirstOf(key: Key, body: seq<string>): string {
    if body == [] then ""
    else if Sets(body[0], key) && ItemOf(body[0]).value.value != "" then ItemOf(body[0]).value.value
    else FirstOf(key, body[1..])
  }

  function LastOf(key: Key, body: seq<string>): string {
    if body == [] then ""
    else if Sets(body[|body| - 1], key) then ItemOf(body[|body| - 1]).value.value
    else LastOf(key, body[..|body| - 1])
  }

  function AllOf(key: Key, body: seq<string>): seq<string> {
    if body == [] then []
    else AllOf(key, body[..|body| - 1]) + if Sets(body[|body| - 1], key)
      then Words(ItemOf(body[|body| - 1]).value.value) else []
  }

  /** The stanza that an "iface" line opens; too short a line opens none. */
  function Opened(line: string): Option<Stanza> {
    var words := Words(Trim(line));
    if |words| >= 4 then Some(Bare(words[1], words[2], words[3])) else None
  }

  function Bare(iface: string, family: string, method_: string): Stanza {
    Stanza(iface, family, method_, "", "", "", [])
  }

  /** A bare stanza with the lines below it: the first address and the last netmask and gateway
      count, and name servers add up. */
  function Filled(s: Stanza, body: seq<string>): Stanza {
    s.(address := FirstOf(Address, body), netmask := LastOf(Netmask, body), gateway := LastOf(Gateway, body),
       dns := AllOf(Dns, body))
  }

  function StanzaOf(heading: string, body: seq<string>): seq<Stanza> {
    match Opened(heading)
    case None => []
    case Some(s) => [Filled(s, body)]
  }

  /** How many lines stand above the next "iface" line. */
  function BodyLength(lines: seq<string>): (n: nat)
    ensures n <= |lines| && (forall k :: 0 <= k < n ==> !Opens(lines[k])) && (n < |lines| ==> Opens(lines[n]))
  {
    if lines == [] || Opens(lines[0]) then 0 else 1 + BodyLength(lines[1..])
  }

  /** A file read without any scan: it is cut above every "iface" line, each piece gives its
      own stanza, and what stands above the first one counts for nothing. */
  function Meaning(lines: seq<string>): seq<Stanza>
    decreases |lines|
  {
    if lines == [] then []
    else if !Opens(lines[0]) then Meaning(lines[1..])
    else
      var below := lines[1..];
      StanzaOf(lines[0], below[..BodyLength(below)]) + Meaning(below[BodyLength(below)..])
  }

  lemma StepOpens(line: string, s: Scan)
    requires Opens(line)
    ensures Step(line, s) == Scan(Flush(s).done, Opened(line))
  {
  }

  lemma StepInside(line: string, s: Scan)
    requires !Opens(line)
    ensures s.current.None? || ItemOf(line).None? ==> Step(line, s) == s
    ensures s.current.Some? && ItemOf(line).Some? ==>
      Step(line, s) == s.(current := Some(Assign(ItemOf(line).value.key, ItemOf(line).value.value, s.current.value)))
  {
  }

  lemma {:induction false} FirstOfSnoc(key: Key, body: seq<string>, line: string)
    ensures FirstOf(key, body + [line]) ==
            if FirstOf(key, body) != "" || !Sets(line, key) then FirstOf(key, body) else ItemOf(line).value.value
  {
    if body == [] {
      assert [] + [line] == [line] && [line][1..] == [];
    } else {
      assert (body + [line])[1..] == body[1..] + [line];
      FirstOfSnoc(key, body[1..], line);
    }
  }

  lemma {:induction false} NothingOpened(lines: seq<string>, done: seq<Stanza>)
    requires forall k :: 0 <= k < |lines| ==> !Opens(lines[k])
    ensures Run(lines, Scan(done, None)) == Scan(done, None)
  {
    if lines != [] {
      StepInside(lines[0], Scan(done, None));
      NothingOpened(lines[1..], done);
    }
  }

  lemma LastOfSnoc(key: Key, body: seq<string>, line: string)
    ensures LastOf(key, body + [line]) == if Sets(line, key) then ItemOf(line).value.value else LastOf(key, body)
    ensures AllOf(key, body + [line])
            == AllOf(key, body) + if Sets(line, key) then Words(ItemOf(line).value.value) else []
  {
    var all := body + [line];
    assert all[..|all| - 1] == body && all[|all| - 1] == line && all != [];
  }

  lemma FilledSnoc(s: Stanza, body: seq<string>, line: string)
    ensures Filled(s, body + [line])
            == match ItemOf(line)
               case None => Filled(s, body)
               case Some(item) => Assign(item.key, item.value, Filled(s, body))
  {
    FirstOfSnoc(Address, body, line);
    LastOfSnoc(Netmask, body, line);
    LastOfSnoc(Gateway, body, line);
    LastOfSnoc(Dns, body, line);
  }

  lemma {:induction false} BodyRun(s: Stanza, body: seq<string>, done: seq<Stanza>)
    requires s == Bare(s.iface, s.family, s.method_) && forall k :: 0 <= k < |body| ==> !Opens(body[k])
    ensures Run(body, Scan(done, Some(s))) == Scan(done, Some(Filled(s, body)))
  {
    if body != [] {
      var n := |body| - 1;
      var line, before := body[n], body[..n];
      assert body == before + [line];
      BodyRun(s, before, done);
      RunSplits(before, [line], Scan(done, Some(s)));
      RunOne(line, Scan(done, Some(Filled(s, before))));
      StepInside(line, Scan(done, Some(Filled(s, before))));
      FilledSnoc(s, before, line);
    }
  }

  /** An open stanza is closed by the end of the file as by the next "iface" line. */
  lemma ClosedByNext(lines: seq<string>, s: Scan)
    requires lines == [] || Opens(lines[0])
    ensures Flush(Run(lines, s)) == Flush(Run(lines, Flush(s)))
  {
    if lines != [] {
      StepOpens(lines[0], s);
      StepOpens(lines[0], Flush(s));
    }
  }

  lemma OneStanza(heading: string, body: seq<string>, done: seq<Stanza>)
    requires Opens(heading) && forall k :: 0 <= k < |body| ==> !Opens(body[k])
    ensures Flush(Run([heading] + body, Scan(done, None))) == Scan(done + StanzaOf(heading, body), None)
  {
    StepOpens(heading, Scan(done, None));
    assert ([heading] + body)[1..] == body;
    if Opened(heading).Some? {
      BodyRun(Opened(heading).value, body, done);
    } else {
      NothingOpened(body, done);
    }
  }

  /** One piece of a file, closed by what follows it. */
  lemma OnePiece(heading: string, body: seq<string>, rest: seq<string>, done: seq<Stanza>)
    requires Opens(heading) && (forall k :: 0 <= k < |body| ==> !Opens(body[k])) && (rest == [] || Opens(rest[0]))
    ensures Flush(Run([heading] + body + rest, Scan(done, None)))
            == Flush(Run(rest, Scan(done + StanzaOf(heading, body), None)))
  {
    OneStanza(heading, body, done);
    RunSplits([heading] + body, rest, Scan(done, None));
    ClosedByNext(rest, Run([heading] + body, Scan(done, None)));
  }

  /** The first piece of a file that begins with an "iface" line, and what follows it. */
  lemma Cut(lines: seq<string>) returns (body: seq<string>, rest: seq<string>)
    requires lines != [] && Opens(lines[0])
    ensures lines == [lines[0]] + body + rest
    ensures (forall k :: 0 <= k < |body| ==> !Opens(body[k])) && (rest == [] || Opens(rest[0]))
    ensures Meaning(lines) == StanzaOf(lines[0], body) + Meaning(rest)
  {
    var below := lines[1..];
    body, rest := below[..BodyLength(below)], below[BodyLength(below)..];
  }

  lemma MeaningAbove(lines: seq<string>)
    requires lines != [] && !Opens(lines[0])
    ensures Meaning(lines) == Meaning(lines[1..])
  {
  }

  lemma {:induction false} RunMeans(lines: seq<string>, done: seq<Stanza>)
    ensures Flush(Run(lines, Scan(done, None))) == Scan(done + Meaning(lines), None)
    decreases |lines|
  {
    if lines == [] {
    } else if !Opens(lines[0]) {
      StepInside(lines[0], Scan(done, None));
      MeaningAbove(lines);
      RunMeans(lines[1..], done);
    } else {
      var body, rest := Cut(lines);
      OnePiece(lines[0], body, rest, done);
      RunMeans(rest, done + StanzaOf(lines[0], body));
      Grouped(done, StanzaOf(lines[0], body), Meaning(rest));
    }
  }

  lemma Grouped(a: seq<Stanza>, b: seq<Stanza>, c: seq<Stanza>)
    ensures (a + b) + c == a + (b + c)
  {
  }

  /** What the parser makes of any file whatever. */
  lemma FileMeans(content: string)
    ensures Stanzas(content) == Meaning(Lines(content))
  {
    RunMeans(Lines(content), []);
  }

  /** Whatever stands above the first "iface" line counts for nothing. */
  lemma AboveCountsForNothing(a: string, b: string)
    requires forall k :: 0 <= k < |Lines(a)| ==> !Opens(Lines(a)[k])
    ensures Stanzas(a + "\n" + b) == Stanzas(b)
  {
    assert a + "\n" + b == a + ['\n'] + b;
    SplitAt(a, b, '\n');
    RunSplits(Lines(a), Lines(b), START);
    NothingOpened(Lines(a), []);
  }

  /** No line sets an option before one opens a stanza. */
  predicate Separate(lines: seq<string>) {
    lines == [] || Opens(lines[0]) || (ItemOf(lines[0]).None? && Separate(lines[1..]))
  }

  lemma {:induction false} DoneStays(lines: seq<string>, before: seq<Stanza>, s: Scan)
    ensures Run(lines, s.(done := before + s.done)) == Run(lines, s).(done := before + Run(lines, s).done)
  {
    if lines != [] {
      var t := s.(done := before + s.done);
      assert Step(lines[0], t) == Step(lines[0], s).(done := before + Step(lines[0], s).done) by {
        if Opens(lines[0]) {
          StepOpens(lines[0], s);
          StepOpens(lines[0], t);
          assert Flush(t).done == before + Flush(s).done;
        } else {
          StepInside(lines[0], s);
          StepInside(lines[0], t);
        }
      }
      DoneStays(lines[1..], before, Step(lines[0], s));
    }
  }

  lemma {:induction false} SeparateRun(lines: seq<string>, s: Scan)
    requires Separate(lines)
    ensures Flush(Run(lines, s)).done == Flush(s).done + Flush(Run(lines, START)).done
  {
    if lines != [] {
      if Opens(lines[0]) {
        StepOpens(lines[0], s);
        StepOpens(lines[0], START);
        DoneStays(lines[1..], Flush(s).done, Scan([], Opened(lines[0])));
        assert Flush(s).done + [] == Flush(s).done;
      } else {
        StepInside(lines[0], s);
        StepInside(lines[0], START);
        SeparateRun(lines[1..], s);
      }
    }
  }

  /** One file behind another: each keeps its stanzas, if the second sets nothing above its first "iface" line. */
  lemma FilesJoin(a: string, b: string)
    requires Separate(Lines(b))
    ensures Stanzas(a + "\n" + b) == Stanzas(a) + Stanzas(b)
  {
    assert a + "\n" + b == a + ['\n'] + b;
    SplitAt(a, b, '\n');
    RunSplits(Lines(a), Lines(b), START);
    SeparateRun(Lines(b), Run(Lines(a), START));
  }

  // ----------------------------------------------------------------- the include

  const DIRECTORY := "/etc/network/interfaces.d/"

  predicate IncludesAt(line: string) {
    var t := Trim(line);
    !Comment(t) && |Words(t)| >= 2 &&
    ((Words(t)[0] == "source" && exists k :: 1 <= k < |Words(t)| && HasPrefix(Words(t)[k], DIRECTORY))
     || (Words(t)[0] == "source-directory"
         && exists k :: 1 <= k < |Words(t)| && TrimSlashes(Words(t)[k]) == "/etc/network/interfaces.d"))
  }

  function TrimSlashes(s: string): string {
    if s != "" && s[|s| - 1] == '/' then TrimSlashes(s[..|s| - 1]) else s
  }

  function TrimNewlines(s: string): string {
    if s != "" && s[|s| - 1] == '\n' then TrimNewlines(s[..|s| - 1]) else s
  }

  predicate Included(lines: seq<string>) {
    exists k :: 0 <= k < |lines| && IncludesAt(lines[k])
  }

  /** ifupdownIncludesDir. */
  method IncludesDir(content: string) returns (r: bool)
    ensures r <==> Included(Lines(content))
  {
    var lines := Lines(content);
    for i := 0 to |lines|
      invariant forall k :: 0 <= k < i ==> !IncludesAt(lines[k])
    {
      var t := Trim(lines[i]);
      if !Comment(t) {
        var words := Words(t);
        if |words| >= 2 {
          var there := WordsInclude(words);
          if there { return true; }
        }
      }
    }
    r := false;
  }

  method WordsInclude(words: seq<string>) returns (r: bool)
    requires |words| >= 2
    ensures r <==>
      || (words[0] == "source" && exists k :: 1 <= k < |words| && HasPrefix(words[k], DIRECTORY))
      || (words[0] == "source-directory"
          && exists k :: 1 <= k < |words| && TrimSlashes(words[k]) == "/etc/network/interfaces.d")
  {
    for k := 1 to |words|
      invariant forall j :: 1 <= j < k ==>
        && (words[0] == "source" ==> !HasPrefix(words[j], DIRECTORY))
        && (words[0] == "source-directory" ==> TrimSlashes(words[j]) != "/etc/network/interfaces.d")
    {
      if words[0] == "source" && HasPrefix(words[k], DIRECTORY) { return true; }
      if words[0] == "source-directory" && TrimSlashes(words[k]) == "/etc/network/interfaces.d" { return true; }
    }
    r := false;
  }

  const BEGIN := "# BEGIN Home-AI-Core managed include"
  const SOURCE := "source" + " " + (DIRECTORY + "*")
  const END := "# END Home-AI-Core managed include"

  function WithInclude(content: string): string {
    Appended(content, [BEGIN, SOURCE, END])
  }

  /** ensureIfupdownIncludeContent. */
  method EnsureInclude(content: string) returns (text: string, changed: bool)
    ensures changed <==> !Included(Lines(content))
    ensures text == if changed then WithInclude(content) else content
  {
    var there := IncludesDir(content);
    if there { return content, false; }
    var trimmed := TrimNewlines(content);
    if trimmed != "" {
      trimmed := trimmed + "\n" + "\n";
    }
    text := WriteLine(trimmed, trimmed, [], BEGIN);
    text := WriteLine(text, trimmed, [BEGIN], SOURCE);
    text := WriteLine(text, trimmed, [BEGIN] + [SOURCE], END);
    assert [BEGIN] + [SOURCE] + [END] == [BEGIN, SOURCE, END];
    changed := true;
  }

  // ---------------------------------------- what the include does and does not change

  lemma StepOfTrim(line: string, s: Scan)
    ensures Step(Trim(line), s) == Step(line, s) && (Trim(line) == "" ==> Step(line, s) == s)
  {
    TrimTwice(line);
  }

  lemma OneOfNormal(line: string, rest: seq<string>, s: Scan)
    ensures Run((if Trim(line) == "" then [] else [Trim(line)]) + rest, s) == Run(rest, Step(line, s))
  {
    var t := Trim(line);
    StepOfTrim(line, s);
    if t == "" {
      assert [] + rest == rest;
    } else {
      assert ([t] + rest)[1..] == rest;
    }
  }

  lemma {:induction false} RunOfNormal(lines: seq<string>, s: Scan)
    ensures Run(Normal(lines), s) == Run(lines, s)
  {
    if lines != [] {
      OneOfNormal(lines[0], Normal(lines[1..]), s);
      RunOfNormal(lines[1..], Step(lines[0], s));
    }
  }

  lemma {:induction false} NewlinesMeanNothing(s: string)
    ensures Normal(Lines(TrimNewlines(s))) == Normal(Lines(s))
  {
    if s != "" && s[|s| - 1] == '\n' {
      NewlinesMeanNothing(s[..|s| - 1]);
      SpaceBehind(s[..|s| - 1], '\n');
      assert s == s[..|s| - 1] + ['\n'];
    }
  }

  predicate Remark(line: string) {
    line != "" && line[0] == '#' && !IsSpace(line[|line| - 1]) && '\n' !in line
  }

  lemma RemarksAreRemarks()
    ensures Remark(BEGIN) && Remark(END)
  {
  }

  lemma RemarkStep(line: string, s: Scan)
    requires Remark(line)
    ensures Step(line, s) == s
  {
    assert Trim(line) == line && HasPrefix(line, "#");
  }

  lemma LiteralWords()
    ensures Word("source") && "source" != "iface" && "source"[0] != '#'
    ensures Word(DIRECTORY)
  {
    assert |"source"| == 6 && |"iface"| == 5;
  }

  lemma TwoWords(a: string, b: string)
    requires Word(a) && Word(b)
    ensures Words(a + " " + b) == [a, b] && Trim(a + " " + b) == a + " " + b && '\n' !in a + " " + b
  {
    var line := a + " " + b;
    assert b + "" == b;
    WordInFront(a, b);
    WordsSplit(b, "");
    assert line[0] == a[0] && line[|line| - 1] == b[|b| - 1];
    assert '\n' !in a by { NoNewline(a); }
    assert '\n' !in b by { NoNewline(b); }
  }

  lemma NoNewline(w: string)
    requires Word(w)
    ensures '\n' !in w
  {
  }

  lemma SourceStep(word: string, target: string, s: Scan)
    requires Word(word) && word == "source" && word != "iface" && word[0] != '#' && Word(target)
    ensures Step(word + " " + target, s) == s
    ensures HasPrefix(target, DIRECTORY) ==> IncludesAt(word + " " + target)
  {
    TwoWords(word, target);
    var line := word + " " + target;
    assert line[0] == word[0] && !HasPrefix(line, "#");
    if HasPrefix(target, DIRECTORY) {
      assert Words(line)[1] == target;
    }
  }

  /** The words that stand outside of every stanza. */
  const OUTSIDE := ["auto", "allow-auto", "allow-hotplug", "source", "source-directory", "mapping"]

  lemma OutsideWords(k: nat)
    requires k < |OUTSIDE|
    ensures Word(OUTSIDE[k]) && OUTSIDE[k][0] != '#' && OUTSIDE[k] != "iface" && Outside(OUTSIDE[k])
  {
  }

  /** A line that begins with one of them changes no stanza, even in the middle of one. */
  lemma OutsideChangesNothing(k: nat, name: string, s: Scan)
    requires k < |OUTSIDE| && Word(name)
    ensures Step(OUTSIDE[k] + " " + name, s) == s
  {
    OutsideWords(k);
    OutsideStep(OUTSIDE[k], name, s);
  }

  lemma OutsideStep(word: string, name: string, s: Scan)
    requires Word(word) && word[0] != '#' && word != "iface" && Outside(word) && Word(name)
    ensures Step(word + " " + name, s) == s
  {
    TwoWords(word, name);
    assert (word + " " + name)[0] == word[0];
  }

  /** The two ways to include the directory: a pattern in it, and the directory itself. */
  lemma IncludeForms(name: string)
    requires Word(name)
    ensures IncludesAt(OUTSIDE[3] + " " + name) <==> HasPrefix(name, DIRECTORY)
    ensures IncludesAt(OUTSIDE[4] + " " + name) <==> TrimSlashes(name) == "/etc/network/interfaces.d"
    ensures !IncludesAt("#" + name)
  {
    OutsideWords(3);
    OutsideWords(4);
    assert OUTSIDE[3] == "source" && OUTSIDE[4] == "source-directory" && |OUTSIDE[3]| == 6 && |OUTSIDE[4]| == 16;
    IncludeForm(OUTSIDE[3], name);
    IncludeForm(OUTSIDE[4], name);
    StartsWithHash(name);
  }

  lemma StartsWithHash(name: string)
    requires Word(name)
    ensures !IncludesAt("#" + name)
  {
    var line := "#" + name;
    assert line[0] == '#' && line[|line| - 1] == name[|name| - 1];
    assert Trim(line) == line && HasPrefix(line, "#");
  }

  lemma IncludeForm(word: string, name: string)
    requires Word(word) && word[0] != '#' && Word(name)
    ensures IncludesAt(word + " " + name) <==>
            || (word == "source" && HasPrefix(name, DIRECTORY))
            || (word == "source-directory" && TrimSlashes(name) == "/etc/network/interfaces.d")
  {
    TwoWords(word, name);
    var line := word + " " + name;
    assert line[0] == word[0] && Words(line)[1] == name;
  }

  /** The line of the include is no part of any stanza, and it includes the directory. */
  lemma SourceLine(s: Scan)
    ensures Step(SOURCE, s) == s && IncludesAt(SOURCE) && '\n' !in SOURCE
  {
    LiteralWords();
    assert Word(DIRECTORY + "*");
    assert HasPrefix(DIRECTORY + "*", DIRECTORY);
    SourceStep("source", DIRECTORY + "*", s);
    TwoWords("source", DIRECTORY + "*");
  }

  function Appended(content: string, block: seq<string>): string {
    var trimmed := TrimNewlines(content);
    (if trimmed == "" then "" else trimmed + "\n" + "\n") + Terminated(block)
  }

  lemma AppendedLines(content: string, block: seq<string>)
    requires forall k :: 0 <= k < |block| ==> '\n' !in block[k]
    ensures Lines(Appended(content, block)) ==
            (if TrimNewlines(content) == "" then [] else Lines(TrimNewlines(content)) + [""]) + (block + [""])
  {
    var trimmed, tail := TrimNewlines(content), Terminated(block);
    LinesOfTerminated(block);
    if trimmed == "" {
      assert "" + tail == tail && [] + (block + [""]) == block + [""];
    } else {
      SplitAt(trimmed + "\n", tail, '\n');
      SplitAt(trimmed, "", '\n');
      assert trimmed + "\n" == trimmed + ['\n'] + "";
      assert trimmed + "\n" + "\n" + tail == (trimmed + "\n") + ['\n'] + tail;
    }
  }

  lemma AppendedMeaning(content: string, block: seq<string>)
    requires forall k :: 0 <= k < |block| ==> '\n' !in block[k]
    ensures Normal(Lines(Appended(content, block))) == Normal(Lines(content)) + Normal(block)
  {
    var trimmed := TrimNewlines(content);
    var before := if trimmed == "" then [] else Lines(trimmed) + [""];
    AppendedLines(content, block);
    NewlinesMeanNothing(content);
    assert Normal(before) == Normal(Lines(trimmed)) by {
      BlankBehind(Lines(trimmed));
      if trimmed == "" { assert Lines("") == [""]; }
    }
    NormalSplits(before, block + [""]);
    BlankBehind(block);
  }

  lemma BlankBehind(lines: seq<string>)
    ensures Normal(lines + [""]) == Normal(lines)
  {
    NormalSplits(lines, [""]);
    NormalOfOne("");
  }

  /** The include leaves the stanzas of any file as they were. */
  lemma IncludeKeepsStanzas(content: string)
    ensures Stanzas(WithInclude(content)) == Stanzas(content)
  {
    KeepsStanzas(content, BEGIN, SOURCE, END);
  }

  lemma KeepsStanzas(content: string, a: string, b: string, c: string)
    requires a == BEGIN && b == SOURCE && c == END
    ensures Stanzas(Appended(content, [a, b, c])) == Stanzas(content)
  {
    var s := Run(Lines(content), START);
    BlockFacts(a, b, c, s);
    AppendedMeaning(content, [a, b, c]);
    RunOfNormal(Lines(Appended(content, [a, b, c])), START);
    RunOfNormal(Lines(content), START);
    RunSplits(Normal(Lines(content)), Normal([a, b, c]), START);
    RunOfNormal([a, b, c], s);
  }

  lemma BlockFacts(a: string, b: string, c: string, s: Scan)
    requires a == BEGIN && b == SOURCE && c == END
    ensures Run([a, b, c], s) == s && '\n' !in a && '\n' !in b && '\n' !in c && IncludesAt(b)
  {
    RemarksAreRemarks();
    SourceLine(s);
    ThreeSteps(a, b, c, s);
  }

  lemma ThreeSteps(a: string, b: string, c: string, s: Scan)
    requires Remark(a) && Remark(c) && Step(b, s) == s
    ensures Run([a, b, c], s) == s
  {
    RemarkStep(a, s);
    RemarkStep(c, s);
    RunOne(c, s);
    assert [a, b, c][1..] == [b, c] && [b, c][1..] == [c];
    assert Run([b, c], s) == Run([c], s);
  }

  /** The include takes effect, and adding it again changes nothing. */
  lemma IncludeTakesEffect(content: string)
    ensures Included(Lines(WithInclude(content)))
  {
    TakesEffect(content, BEGIN, SOURCE, END);
  }

  lemma TakesEffect(content: string, a: string, b: string, c: string)
    requires a == BEGIN && b == SOURCE && c == END
    ensures Included(Lines(Appended(content, [a, b, c])))
  {
    BlockFacts(a, b, c, START);
    AppendedLines(content, [a, b, c]);
    var before := if TrimNewlines(content) == "" then [] else Lines(TrimNewlines(content)) + [""];
    assert (before + ([a, b, c] + [""]))[|before| + 1] == b;
  }

  // ------------------------------------------------------------------- rendering

  datatype Profile = Profile(method_: string, address: string, gateway: string, dns: seq<string>)

  const INDENT := "    "

  function Setting(key: Key, value: string): string {
    INDENT + (NameOf(key) + " " + value)
  }

  function Settings(p: Profile): seq<string> {
    (if p.method_ == "static" then [Setting(Address, p.address)] else [])
    + (if p.method_ == "static" && p.gateway != "" then [Setting(Gateway, p.gateway)] else [])
    + DnsLines(p.dns)
  }

  function DnsLines(dns: seq<string>): seq<string> {
    if |dns| > 0 then [Setting(Dns, Join(dns, " "))] else []
  }

  function Heading(iface: string, p: Profile): seq<string> {
    ["# Managed by Home-AI-Core", "# This file is owned by Home-AI-Core.",
     "auto" + " " + iface, IfaceLine(iface, "inet", p.method_)]
  }

  function IfaceLine(iface: string, family: string, method_: string): string {
    "iface" + " " + (iface + " " + (family + " " + method_))
  }

  /** renderIfupdownProfile. */
  method Render(iface: string, p: Profile) returns (b: string)
    ensures b == Terminated(Heading(iface, p) + Settings(p))
  {
    b := RenderHeading(iface, p);
    ghost var lines := Heading(iface, p);
    if p.method_ == "static" {
      b := WriteLine(b, "", lines, Setting(Address, p.address));
      lines := lines + [Setting(Address, p.address)];
      if p.gateway != "" {
        b := WriteLine(b, "", lines, Setting(Gateway, p.gateway));
        lines := lines + [Setting(Gateway, p.gateway)];
      }
    }
    if |p.dns| > 0 {
      b := WriteLine(b, "", lines, Setting(Dns, Join(p.dns, " ")));
      lines := lines + [Setting(Dns, Join(p.dns, " "))];
    }
    assert lines == Heading(iface, p) + Settings(p);
  }

  method RenderHeading(iface: string, p: Profile) returns (b: string)
    ensures b == Terminated(Heading(iface, p))
  {
    var h := Heading(iface, p);
    b := WriteLine("", "", [], h[0]);
    b := WriteLine(b, "", [h[0]], h[1]);
    b := WriteLine(b, "", [h[0]] + [h[1]], h[2]);
    b := WriteLine(b, "", [h[0]] + [h[1]] + [h[2]], h[3]);
    assert [h[0]] + [h[1]] + [h[2]] + [h[3]] == h;
  }

  // ------------------------------------------------------------------ round trip

  predicate Value(s: string) {
    Trim(s) == s && '\n' !in s
  }

  predicate Plain(iface: string, p: Profile) {
    && Word(iface) && (p.method_ == "dhcp" || p.method_ == "static") && Word(p.method_)
    && Value(p.address) && Value(p.gateway)
    && forall k :: 0 <= k < |p.dns| ==> Word(p.dns[k])
  }

  /** What parsing must give back. */
  function Parsed(iface: string, p: Profile): Stanza {
    if p.method_ == "static" then Stanza(iface, "inet", p.method_, p.address, "", p.gateway, p.dns)
    else Stanza(iface, "inet", p.method_, "", "", "", p.dns)
  }

  lemma NamesAreWords(key: Key)
    ensures Word(NameOf(key)) && NameOf(key)[0] != '#' && NameOf(key) != "iface" && !Outside(NameOf(key))
  {
    assert NameOf(key)[0] in "angd" && "iface"[0] == 'i' && "mapping"[0] == 'm' && |"source"| == 6 && "source"[0] == 's'
        && "source-directory"[0] == 's';
    assert key.Address? ==>
      NameOf(key)[1] == 'd' && "auto"[1] == 'u' && "allow-auto"[1] == 'l' && "allow-hotplug"[1] == 'l';
  }

  lemma NamesDiffer(a: Key, b: Key)
    ensures EqualFold(NameOf(a), NameOf(b)) <==> a == b
  {
    if EqualFold(NameOf(a), NameOf(b)) {
      assert |NameOf(a)| == |ToLower(NameOf(a))| == |NameOf(b)|;
      assert Lower(NameOf(a)[0]) == ToLower(NameOf(a))[0] == Lower(NameOf(b)[0]);
    }
  }

  lemma KeyFacts(key: Key)
    ensures KeyOf(NameOf(key)) == Some(key)
  {
    NamesDiffer(key, Address);
    NamesDiffer(key, Netmask);
    NamesDiffer(key, Gateway);
    NamesDiffer(key, Dns);
  }

  /** An indented "word value" line, taken apart again. */
  lemma SettingLine(name: string, value: string)
    requires Word(name) && Trim(value) == value
    ensures var line := Trim(INDENT + (name + " " + value));
            && line != "" && line[0] == name[0] && Words(line) != [] && Words(line)[0] == name
            && |name| <= |line| && Trim(line[|name|..]) == value
  {
    var body := name + " " + value;
    TrimDropsSpace(INDENT, body);
    if value == "" {
      TrimRight(name, ' ');
      assert body == name + [' '];
      assert Trim(name) == name;
      WordsSplit(name, "");
      assert name + "" == name && name[|name|..] == "";
    } else {
      assert body[0] == name[0] && body[|body| - 1] == value[|value| - 1];
      assert Trim(body) == body && body == name + (" " + value) && body[|name|..] == " " + value;
      WordsSplit(name, " " + value);
      assert (" " + value)[1..] == value;
    }
  }

  lemma SettingStep(key: Key, value: string, s: Scan)
    requires Trim(value) == value && s.current.Some?
    ensures Step(Setting(key, value), s) == s.(current := Some(Assign(key, value, s.current.value)))
  {
    NamesAreWords(key);
    KeyFacts(key);
    NamedStep(NameOf(key), value, key, s);
  }

  lemma NamedStep(name: string, value: string, key: Key, s: Scan)
    requires Word(name) && name[0] != '#' && name != "iface" && !Outside(name) && KeyOf(name) == Some(key)
    requires Trim(value) == value && s.current.Some?
    ensures Step(INDENT + (name + " " + value), s) == s.(current := Some(Assign(key, value, s.current.value)))
  {
    SettingLine(name, value);
    assert !HasPrefix(Trim(INDENT + (name + " " + value)), "#");
  }

  lemma HeadingRun(iface: string, p: Profile)
    requires Word(iface) && Word(p.method_)
    ensures Run(Heading(iface, p), START) == Scan([], Some(Stanza(iface, "inet", p.method_, "", "", "", [])))
  {
    var h := Heading(iface, p);
    HeadingRemarks(iface, p);
    RemarkStep(h[0], START);
    RemarkStep(h[1], START);
    KeywordFacts();
    AutoStep("auto", iface);
    IfaceStep("iface", iface, "inet", p.method_, START);
    FourSteps(h[0], h[1], h[2], h[3]);
    assert h == [h[0], h[1], h[2], h[3]];
  }

  lemma HeadingOnLines(iface: string, p: Profile)
    requires Word(iface) && Word(p.method_)
    ensures forall k :: 0 <= k < 4 ==> '\n' !in Heading(iface, p)[k]
  {
    HeadingRemarks(iface, p);
    KeywordFacts();
    AutoStep("auto", iface);
    IfaceStep("iface", iface, "inet", p.method_, START);
  }

  lemma HeadingRemarks(iface: string, p: Profile)
    ensures Remark(Heading(iface, p)[0]) && Remark(Heading(iface, p)[1])
  {
  }

  lemma KeywordFacts()
    ensures Word("auto") && Word("iface") && Word("inet") && "auto" != "iface" && "auto"[0] != '#' && "iface"[0] != '#'
  {
    assert |"auto"| == 4 && |"iface"| == 5;
  }

  lemma FourSteps(a: string, b: string, c: string, d: string)
    requires Step(a, START) == START && Step(b, START) == START && Step(c, START) == START
    ensures Run([a, b, c, d], START) == Step(d, START)
  {
    assert [a, b, c, d][1..] == [b, c, d] && [b, c, d][1..] == [c, d] && [c, d][1..] == [d];
    RunOne(d, START);
    assert Run([c, d], START) == Run([d], START);
    assert Run([b, c, d], START) == Run([c, d], START);
  }

  lemma AutoStep(word: string, iface: string)
    requires Word(word) && word == "auto" && word != "iface" && word[0] != '#' && Word(iface)
    ensures Step(word + " " + iface, START) == START && '\n' !in word + " " + iface
  {
    TwoWords(word, iface);
    assert (word + " " + iface)[0] == word[0];
  }

  lemma IfaceStep(word: string, iface: string, family: string, method_: string, s: Scan)
    requires Word(word) && word == "iface" && word[0] != '#' && Word(iface) && Word(family) && Word(method_)
    ensures var line := word + " " + (iface + " " + (family + " " + method_));
            && Step(line, s) == Scan(Flush(s).done, Some(Stanza(iface, family, method_, "", "", "", [])))
              && '\n' !in line
  {
    var line := word + " " + (iface + " " + (family + " " + method_));
    FourWords(word, iface, family, method_);
    assert !HasPrefix(line, "#");
  }

  lemma MoreWords(a: string, rest: string)
    requires Word(a) && rest != "" && !IsSpace(rest[0]) && !IsSpace(rest[|rest| - 1]) && '\n' !in rest
    ensures var line := a + " " + rest;
            && Words(line) == [a] + Words(rest) && line[0] == a[0] && line[|line| - 1] == rest[|rest| - 1]
            && Trim(line) == line && '\n' !in line
  {
    WordInFront(a, rest);
    NoNewline(a);
  }

  lemma FourWords(a: string, b: string, c: string, d: string)
    requires Word(a) && Word(b) && Word(c) && Word(d)
    ensures var line := a + " " + (b + " " + (c + " " + d));
            Words(line) == [a, b, c, d] && Trim(line) == line && line[0] == a[0] && '\n' !in line
  {
    TwoWords(c, d);
    MoreWords(b, c + " " + d);
    MoreWords(a, b + " " + (c + " " + d));
  }

  lemma RunSetting(key: Key, value: string, rest: seq<string>, done: seq<Stanza>, s: Stanza)
    requires Trim(value) == value
    ensures Run([Setting(key, value)] + rest, Scan(done, Some(s))) == Run(rest, Scan(done, Some(Assign(key, value, s))))
  {
    SettingStep(key, value, Scan(done, Some(s)));
    assert ([Setting(key, value)] + rest)[1..] == rest;
  }

  lemma SettingsRun(iface: string, p: Profile)
    requires Plain(iface, p)
    ensures Run(Settings(p), Scan([], Some(Stanza(iface, "inet", p.method_, "", "", "", []))))
            == Scan([], Some(Parsed(iface, p)))
  {
    var s := Stanza(iface, "inet", p.method_, "", "", "", []);
    var dns := DnsLines(p.dns);
    if p.method_ == "static" {
      var t := s.(address := p.address);
      var gateway := if p.gateway != "" then [Setting(Gateway, p.gateway)] else [];
      assert Settings(p) == [Setting(Address, p.address)] + (gateway + dns);
      RunSetting(Address, p.address, gateway + dns, [], s);
      if p.gateway != "" {
        RunSetting(Gateway, p.gateway, dns, [], t);
      } else {
        assert gateway + dns == dns;
      }
      DnsRun(p.dns, [], t.(gateway := p.gateway));
    } else {
      assert Settings(p) == dns;
      DnsRun(p.dns, [], s);
    }
  }

  lemma DnsRun(dns: seq<string>, done: seq<Stanza>, s: Stanza)
    requires s.dns == [] && forall k :: 0 <= k < |dns| ==> Word(dns[k])
    ensures Run(DnsLines(dns), Scan(done, Some(s))) == Scan(done, Some(s.(dns := dns)))
  {
    if |dns| > 0 {
      WordsOfJoin(dns);
      JoinIsTrimmed(dns);
      RunSetting(Dns, Join(dns, " "), [], done, s);
      assert [Setting(Dns, Join(dns, " "))] + [] == [Setting(Dns, Join(dns, " "))];
      assert [] + dns == dns;
    }
  }

  lemma {:induction false} JoinIsTrimmed(words: seq<string>)
    requires |words| > 0 && forall k :: 0 <= k < |words| ==> Word(words[k])
    ensures var j := Join(words, " ");
            j != "" && !IsSpace(j[0]) && !IsSpace(j[|j| - 1]) && Trim(j) == j && '\n' !in j
  {
    NoNewline(words[0]);
    if |words| > 1 {
      JoinIsTrimmed(words[1..]);
    }
  }

  /** Parsing what was rendered gives one stanza with the same method, address, gateway and
      name servers. */
  lemma RoundTrip(iface: string, p: Profile)
    requires Plain(iface, p)
    ensures Stanzas(Terminated(Heading(iface, p) + Settings(p))) == [Parsed(iface, p)]
  {
    HeadingRun(iface, p);
    HeadingOnLines(iface, p);
    SettingsRun(iface, p);
    SettingsOnLines(p);
    RunSplits(Heading(iface, p), Settings(p), START);
    TerminatedRun(Heading(iface, p) + Settings(p));
    assert [] + [Parsed(iface, p)] == [Parsed(iface, p)];
  }

  lemma SettingsOnLines(p: Profile)
    requires '\n' !in p.address && '\n' !in p.gateway && forall k :: 0 <= k < |p.dns| ==> Word(p.dns[k])
    ensures forall k :: 0 <= k < |Settings(p)| ==> '\n' !in Settings(p)[k]
  {
    if |p.dns| > 0 { JoinIsTrimmed(p.dns); }
    SettingOnLine(Address, p.address);
    SettingOnLine(Gateway, p.gateway);
    if |p.dns| > 0 { SettingOnLine(Dns, Join(p.dns, " ")); }
  }

  lemma SettingOnLine(key: Key, value: string)
    requires '\n' !in value
    ensures '\n' !in Setting(key, value)
  {
    NamesAreWords(key);
    NoNewline(NameOf(key));
  }

  // --------------------------------------------------- many stanzas, one after the other

  predicate Proper(s: Stanza) {
    && Word(s.iface) && Word(s.family) && Word(s.method_)
    && Value(s.address) && Value(s.netmask) && Value(s.gateway)
    && forall k :: 0 <= k < |s.dns| ==> Word(s.dns[k])
  }

  function OptionLines(key: Key, value: string): seq<string> {
    if value == "" then [] else [Setting(key, value)]
  }

  function Options(s: Stanza): seq<string> {
    OptionLines(Address, s.address)
    + (OptionLines(Netmask, s.netmask) + (OptionLines(Gateway, s.gateway) + DnsLines(s.dns)))
  }

  function StanzaLines(s: Stanza): seq<string> {
    [IfaceLine(s.iface, s.family, s.method_)] + Options(s)
  }

  function Flat(pieces: seq<seq<string>>): seq<string> {
    if pieces == [] then [] else pieces[0] + Flat(pieces[1..])
  }

  function FileLines(stanzas: seq<Stanza>): seq<string> {
    Flat(seq(|stanzas|, k requires 0 <= k < |stanzas| => StanzaLines(stanzas[k])))
  }

  lemma OptionRun(key: Key, value: string, rest: seq<string>, done: seq<Stanza>, s: Stanza)
    requires Value(value)
    ensures Run(OptionLines(key, value) + rest, Scan(done, Some(s)))
            == Run(rest, Scan(done, Some(if value == "" then s else Assign(key, value, s))))
  {
    if value == "" {
      assert [] + rest == rest;
    } else {
      RunSetting(key, value, rest, done, s);
    }
  }

  lemma OptionsRun(s: Stanza, done: seq<Stanza>)
    requires Proper(s)
    ensures Run(Options(s), Scan(done, Some(Bare(s.iface, s.family, s.method_)))) == Scan(done, Some(s))
  {
    var s0, dns := Bare(s.iface, s.family, s.method_), DnsLines(s.dns);
    var gateway := OptionLines(Gateway, s.gateway) + dns;
    OptionRun(Address, s.address, OptionLines(Netmask, s.netmask) + gateway, done, s0);
    OptionRun(Netmask, s.netmask, gateway, done, s0.(address := s.address));
    OptionRun(Gateway, s.gateway, dns, done, s0.(address := s.address, netmask := s.netmask));
    DnsRun(s.dns, done, s.(dns := []));
  }

  predicate OnLines(lines: seq<string>) {
    forall k :: 0 <= k < |lines| ==> '\n' !in lines[k]
  }

  lemma OptionsOnLines(s: Stanza)
    requires Proper(s)
    ensures OnLines(Options(s))
  {
    SettingOnLine(Address, s.address);
    SettingOnLine(Netmask, s.netmask);
    SettingOnLine(Gateway, s.gateway);
    if |s.dns| > 0 {
      JoinIsTrimmed(s.dns);
      SettingOnLine(Dns, Join(s.dns, " "));
    }
  }

  /** The lines leave just this stanza open, whatever stood above them. */
  ghost predicate Gives(lines: seq<string>, s: Stanza) {
    forall before :: Run(lines, before) == Scan(Flush(before).done, Some(s))
  }

  lemma StanzaGives(s: Stanza)
    requires Proper(s)
    ensures Gives(StanzaLines(s), s) && OnLines(StanzaLines(s))
  {
    var line := IfaceLine(s.iface, s.family, s.method_);
    assert StanzaLines(s)[1..] == Options(s);
    KeywordFacts();
    OptionsOnLines(s);
    forall before ensures Run(StanzaLines(s), before) == Scan(Flush(before).done, Some(s)) {
      IfaceStep("iface", s.iface, s.family, s.method_, before);
      OptionsRun(s, Flush(before).done);
    }
    IfaceStep("iface", s.iface, s.family, s.method_, START);
  }

  ghost predicate AllGive(pieces: seq<seq<string>>, stanzas: seq<Stanza>) {
    && |pieces| == |stanzas|
    && (pieces != [] ==> Gives(pieces[0], stanzas[0]) && AllGive(pieces[1..], stanzas[1..]))
  }

  lemma {:induction false} EachGives(pieces: seq<seq<string>>, stanzas: seq<Stanza>)
    requires |pieces| == |stanzas| && forall k :: 0 <= k < |pieces| ==> Gives(pieces[k], stanzas[k])
    ensures AllGive(pieces, stanzas)
  {
    if pieces != [] {
      EachGives(pieces[1..], stanzas[1..]);
    }
  }

  lemma GivesInFront(lines: seq<string>, s: Stanza, rest: seq<string>, before: Scan)
    requires Gives(lines, s)
    ensures Run(lines + rest, before) == Run(rest, Scan(Flush(before).done, Some(s)))
  {
    RunSplits(lines, rest, before);
  }

  lemma {:induction false} FlatRun(pieces: seq<seq<string>>, stanzas: seq<Stanza>, before: Scan)
    requires AllGive(pieces, stanzas)
    ensures Flush(Run(Flat(pieces), before)).done == Flush(before).done + stanzas
  {
    if pieces != [] {
      GivesInFront(pieces[0], stanzas[0], Flat(pieces[1..]), before);
      FlatRun(pieces[1..], stanzas[1..], Scan(Flush(before).done, Some(stanzas[0])));
    }
  }

  lemma {:induction false} FlatOnLines(pieces: seq<seq<string>>)
    requires forall k :: 0 <= k < |pieces| ==> OnLines(pieces[k])
    ensures OnLines(Flat(pieces))
  {
    if pieces != [] {
      FlatOnLines(pieces[1..]);
    }
  }

  /** How the four options are written. */
  lemma WrittenAs(value: string)
    requires value != ""
    ensures OptionLines(Address, value) == ["    address " + value]
    ensures OptionLines(Netmask, value) == ["    netmask " + value]
    ensures OptionLines(Gateway, value) == ["    gateway " + value]
    ensures OptionLines(Dns, value) == ["    dns-nameservers " + value]
  {
    var indent := INDENT;
    assert indent + ("address" + " " + value) == "    address " + value;
    assert indent + ("netmask" + " " + value) == "    netmask " + value;
    assert indent + ("gateway" + " " + value) == "    gateway " + value;
    assert indent + ("dns-nameservers" + " " + value) == "    dns-nameservers " + value;
  }

  /** Any list of stanzas, written one below the other, is parsed back exactly. */
  lemma ListRoundTrip(stanzas: seq<Stanza>)
    requires forall k :: 0 <= k < |stanzas| ==> Proper(stanzas[k])
    ensures Stanzas(Terminated(FileLines(stanzas))) == stanzas
  {
    var pieces := seq(|stanzas|, k requires 0 <= k < |stanzas| => StanzaLines(stanzas[k]));
    forall k | 0 <= k < |stanzas| ensures Gives(pieces[k], stanzas[k]) && OnLines(pieces[k]) {
      StanzaGives(stanzas[k]);
    }
    EachGives(pieces, stanzas);
    FlatRun(pieces, stanzas, START);
    FlatOnLines(pieces);
    TerminatedRun(Flat(pieces));
  }

  lemma TerminatedRun(lines: seq<string>)
    requires OnLines(lines)
    ensures Run(Lines(Terminated(lines)), START) == Run(lines, START)
  {
    LinesOfTerminated(lines);
    RunSplits(lines, [""], START);
    RunOne("", Run(lines, START));
  }
}
