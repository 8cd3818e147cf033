/** Peers in a WireGuard configuration: appended, looked for, and removed line by line. */
module WireGuard {
  import opened Faults
  import opened Numbers
  import opened Text

  // ---------------------------------------------------------------- single lines

  predicate Opens(line: string) {
    HasPrefix(Trim(line), "[")
  }

  /** What the readers take for a section header. */
  predicate IsHeader(line: string) {
    Opens(line) && HasSuffix(Trim(line), "]")
  }

  predicate IsPeer(line: string) {
    EqualFold(Trim(line), "[Peer]")
  }

  predicate IsInterface(line: string) {
    EqualFold(Trim(line), "[Interface]")
  }

  predicate KeyLine(line: string, key: string) {
    var t := Trim(line);
    var at := IndexOf(t, '=');
    at.Some? && EqualFold(Trim(t[..at.value]), "PublicKey") && Trim(t[at.value + 1..]) == key
  }

  lemma LowerKeepsBrackets(c: char)
    ensures (Lower(c) == '[' <==> c == '[') && (Lower(c) == ']' <==> c == ']')
  {
  }

  lemma PeerIsHeader(line: string)
    ensures IsPeer(line) ==> IsHeader(line) && !IsInterface(line)
  {
    var t := Trim(line);
    if IsPeer(line) {
      assert |ToLower(t)| == |ToLower("[Peer]")| == 6;
      assert ToLower("[Peer]")[0] == '[' && ToLower("[Peer]")[5] == ']';
      assert Lower(t[0]) == ToLower(t)[0] && Lower(t[5]) == ToLower(t)[5];
      LowerKeepsBrackets(t[0]);
      LowerKeepsBrackets(t[5]);
      assert |ToLower("[Interface]")| == 11;
    }
  }

  /** Every line that looks like a header is one. */
  predicate WellFormed(lines: seq<string>) {
    forall k :: 0 <= k < |lines| ==> Opens(lines[k]) ==> IsHeader(lines[k])
  }

  // ------------------------------------------------------------- what a file means

  /** Lines up to the next header. */
  function Body(lines: seq<string>): (n: nat)
    ensures n <= |lines| && (n < |lines| ==> IsHeader(lines[n]))
    ensures forall k :: 0 <= k < n ==> !IsHeader(lines[k])
  {
    if lines == [] || IsHeader(lines[0]) then 0 else 1 + Body(lines[1..])
  }

  /** The peers: for each [Peer] section its lines, trimmed, without the blank ones. */
  function Peers(lines: seq<string>): seq<seq<string>>
    decreases |lines|
  {
    if lines == [] then []
    else if !IsPeer(lines[0]) then Peers(lines[1..])
    else
      var n := 1 + Body(lines[1..]);
      [Normal(lines[1..n])] + Peers(lines[n..])
  }

  /** The lines of the [Interface] sections. */
  function InterfaceLines(lines: seq<string>, inside: bool): seq<string> {
    if lines == [] then []
    else if IsHeader(lines[0]) then InterfaceLines(lines[1..], IsInterface(lines[0]))
    else (if inside then Normal([lines[0]]) else []) + InterfaceLines(lines[1..], inside)
  }

  predicate KeyIn(peer: seq<string>, key: string) {
    peer != [] && (KeyLine(peer[0], key) || KeyIn(peer[1..], key))
  }

  predicate Present(peers: seq<seq<string>>, key: string) {
    peers != [] && (KeyIn(peers[0], key) || Present(peers[1..], key))
  }

  /** All peers but those with the key. */
  function Others(peers: seq<seq<string>>, key: string): seq<seq<string>> {
    if peers == [] then []
    else (if KeyIn(peers[0], key) then [] else [peers[0]]) + Others(peers[1..], key)
  }

  lemma {:induction false} OthersLackTheKey(peers: seq<seq<string>>, key: string)
    ensures !Present(Others(peers, key), key)
    ensures !Present(peers, key) ==> Others(peers, key) == peers
  {
    if peers != [] {
      OthersLackTheKey(peers[1..], key);
      var rest := Others(peers[1..], key);
      assert Others(peers, key) == if KeyIn(peers[0], key) then rest else [peers[0]] + rest;
      assert ([peers[0]] + rest)[1..] == rest;
    }
  }

  // ------------------------------------------------------------------ the search

  /** The state machine of wireGuardConfigHasPeer. */
  function HasKey(lines: seq<string>, inPeer: bool, key: string): bool {
    if lines == [] then false
    else if IsHeader(lines[0]) then HasKey(lines[1..], IsPeer(lines[0]), key)
    else (inPeer && KeyLine(lines[0], key)) || HasKey(lines[1..], inPeer, key)
  }

  /** wireGuardConfigHasPeer. */
  method HasPeer(config: string, key: string) returns (r: bool)
    ensures r <==> Present(Peers(Lines(config)), key)
  {
    var lines := Lines(config);
    var inPeer := false;
    for i := 0 to |lines|
      invariant HasKey(lines, false, key) == HasKey(lines[i..], inPeer, key)
    {
      if IsHeader(lines[i]) {
        inPeer := IsPeer(lines[i]);
      } else if inPeer && KeyLine(lines[i], key) {
        SearchFindsPeers(lines, key);
        return true;
      }
    }
    SearchFindsPeers(lines, key);
    r := false;
  }

  lemma KeyInFront(line: string, rest: seq<string>, key: string)
    ensures KeyIn([line] + rest, key) == (KeyLine(line, key) || KeyIn(rest, key))
  {
    assert ([line] + rest)[1..] == rest;
  }

  lemma KeyLineTrimmed(line: string, key: string)
    ensures KeyLine(Trim(line), key) == KeyLine(line, key)
    ensures Trim(line) == "" ==> !KeyLine(line, key)
  {
    TrimTwice(line);
  }

  lemma {:induction false} NoHeaderSearch(lines: seq<string>, inPeer: bool, key: string)
    requires forall k :: 0 <= k < |lines| ==> !IsHeader(lines[k])
    ensures HasKey(lines, inPeer, key) <==> inPeer && KeyIn(Normal(lines), key)
  {
    if lines != [] {
      NoHeaderSearch(lines[1..], inPeer, key);
      KeyLineTrimmed(lines[0], key);
      var t, rest := Trim(lines[0]), Normal(lines[1..]);
      if t == "" {
        assert Normal(lines) == rest;
      } else {
        KeyInFront(t, rest, key);
        assert Normal(lines) == [t] + rest;
      }
    }
  }

  lemma {:induction false} SearchSplits(a: seq<string>, b: seq<string>, inPeer: bool, key: string)
    requires b == [] || IsHeader(b[0])
    ensures HasKey(a + b, inPeer, key) == (HasKey(a, inPeer, key) || HasKey(b, false, key))
  {
    if a == [] {
      assert a + b == b;
    } else {
      assert (a + b)[1..] == a[1..] + b;
      SearchSplits(a[1..], b, if IsHeader(a[0]) then IsPeer(a[0]) else inPeer, key);
    }
  }

  /** The search says yes exactly when a peer has the key. */
  lemma {:induction false} SearchFindsPeers(lines: seq<string>, key: string)
    ensures HasKey(lines, false, key) <==> Present(Peers(lines), key)
    decreases |lines|
  {
    if lines == [] {
    } else if !IsPeer(lines[0]) {
      SearchFindsPeers(lines[1..], key);
    } else {
      var n := 1 + Body(lines[1..]);
      SearchFindsPeers(lines[n..], key);
      SearchInFront(lines, n, key);
      assert Peers(lines) == [Normal(lines[1..n])] + Peers(lines[n..]);
      PresentInFront(Normal(lines[1..n]), Peers(lines[n..]), key);
    }
  }

  lemma SearchInFront(lines: seq<string>, n: nat, key: string)
    requires lines != [] && IsPeer(lines[0]) && n == 1 + Body(lines[1..])
    ensures n <= |lines|
    ensures HasKey(lines, false, key) <==> KeyIn(Normal(lines[1..n]), key) || HasKey(lines[n..], false, key)
  {
    PeerIsHeader(lines[0]);
    var body, rest := lines[1..n], lines[n..];
    assert lines[1..] == body + rest;
    assert forall k :: 0 <= k < |body| ==> body[k] == lines[1..][k];
    SearchSplits(body, rest, true, key);
    NoHeaderSearch(body, true, key);
  }

  // ----------------------------------------------------------------- the removal

  /** Lines up to the next one that opens a section, header or not. */
  function Block(lines: seq<string>): (n: nat)
    ensures n <= |lines| && (n < |lines| ==> Opens(lines[n]))
    ensures forall k :: 0 <= k < n ==> !Opens(lines[k])
  {
    if lines == [] || Opens(lines[0]) then 0 else 1 + Block(lines[1..])
  }

  /** What stays of the lines, and whether anything was removed. */
  function Removed(lines: seq<string>, key: string): (seq<string>, bool)
    decreases |lines|
  {
    if lines == [] then ([], false)
    else if !IsPeer(lines[0]) then
      var rest := Removed(lines[1..], key);
      ([lines[0]] + rest.0, rest.1)
    else
      var n := 1 + Block(lines[1..]);
      var rest := Removed(lines[n..], key);
      if HasKey(lines[..n], false, key) then (rest.0, true) else (lines[..n] + rest.0, rest.1)
  }

  function RemovedText(config: string, key: string): string {
    Trim(Join(Removed(Lines(config), key).0, "\n")) + "\n"
  }

  /** removeWireGuardPeer. */
  method Remove(config: string, key: string) returns (text: string, found: bool)
    ensures text == RemovedText(config, key) && found == Removed(Lines(config), key).1
  {
    PartsLackSeparator(config, '\n');
    var out;
    out, found := RemoveLines(Lines(config), key);
    text := Trim(Join(out, "\n")) + "\n";
  }

  method RemoveLines(lines: seq<string>, key: string) returns (out: seq<string>, found: bool)
    requires forall k :: 0 <= k < |lines| ==> '\n' !in lines[k]
    ensures (out, found) == Removed(lines, key)
  {
    out, found := [], false;
    var i := 0;
    ghost var whole, tail := Removed(lines, key), Removed(lines, key);
    assert lines[0..] == lines && [] + tail.0 == tail.0;
    while i < |lines|
      invariant i <= |lines| && tail == Removed(lines[i..], key)
      invariant whole.0 == out + tail.0 && whole.1 == (found || tail.1)
    {
      var end, has := NextBlock(lines, i, key);
      ghost var rest := Removed(lines[end..], key);
      Regroup(out, lines[i..end], rest.0);
      found := found || has;
      out := if has then out else out + lines[i..end];
      i, tail := end, rest;
    }
    assert lines[i..] == [] && out + [] == out;
  }

  /** One turn of the loop: a whole [Peer] block, or a line outside of one. */
  method NextBlock(lines: seq<string>, i: nat, key: string) returns (end: nat, has: bool)
    requires i < |lines| && forall k :: 0 <= k < |lines| ==> '\n' !in lines[k]
    ensures i < end <= |lines|
    ensures var rest := Removed(lines[end..], key);
            Removed(lines[i..], key) == (if has then rest.0 else lines[i..end] + rest.0, has || rest.1)
  {
    end, has := i + 1, false;
    if IsPeer(lines[i]) {
      end := EndOfBlock(lines, i);
      has := BlockHasKey(lines[i..end], key);
    }
    RemovedStep(lines, i, end, key, has);
  }

  lemma RemovedStep(lines: seq<string>, i: nat, end: nat, key: string, has: bool)
    requires i < end <= |lines|
    requires end == if IsPeer(lines[i]) then i + 1 + Block(lines[i + 1..]) else i + 1
    requires has == (IsPeer(lines[i]) && HasKey(lines[i..end], false, key))
    ensures var rest := Removed(lines[end..], key);
            Removed(lines[i..], key) == (if has then rest.0 else lines[i..end] + rest.0, has || rest.1)
  {
    SlicesOfTail(lines, i, end);
    RemovedHead(lines[i..], end - i, key);
  }

  lemma SlicesOfTail(lines: seq<string>, i: nat, end: nat)
    requires i < end <= |lines|
    ensures lines[i..][1..] == lines[i + 1..] && lines[i..][..end - i] == lines[i..end]
    ensures lines[i..][end - i..] == lines[end..] && lines[i..][0] == lines[i]
  {
  }

  lemma RemovedHead(lines: seq<string>, n: nat, key: string)
    requires lines != [] && n == if IsPeer(lines[0]) then 1 + Block(lines[1..]) else 1
    ensures n <= |lines|
    ensures var has := IsPeer(lines[0]) && HasKey(lines[..n], false, key); var rest := Removed(lines[n..], key);
            Removed(lines, key) == (if has then rest.0 else lines[..n] + rest.0, has || rest.1)
  {
    assert [lines[0]] == lines[..1];
  }

  /** The search in one block, joined again to a text. */
  method BlockHasKey(block: seq<string>, key: string) returns (has: bool)
    requires block != [] && forall k :: 0 <= k < |block| ==> '\n' !in block[k]
    ensures has == HasKey(block, false, key)
  {
    SplitOfJoin(block, '\n');
    has := HasPeer(Join(block, "\n"), key);
    SearchFindsPeers(block, key);
  }

  method EndOfBlock(lines: seq<string>, start: nat) returns (end: nat)
    requires start < |lines|
    ensures start < end <= |lines| && end == start + 1 + Block(lines[start + 1..])
  {
    end := start + 1;
    while end < |lines| && !Opens(lines[end])
      invariant start < end <= |lines| && Block(lines[start + 1..]) == end - start - 1 + Block(lines[end..])
    {
      assert lines[end..][1..] == lines[end + 1..];
      end := end + 1;
    }
  }

  lemma {:induction false} BodySplits(a: seq<string>, b: seq<string>)
    requires b == [] || IsHeader(b[0])
    ensures Body(a + b) == Body(a)
  {
    if a == [] {
      assert a + b == b;
    } else {
      assert (a + b)[1..] == a[1..] + b;
      BodySplits(a[1..], b);
    }
  }

  lemma {:induction false} InterfaceSplits(a: seq<string>, b: seq<string>, inside: bool)
    requires b == [] || IsHeader(b[0])
    ensures InterfaceLines(a + b, inside) == InterfaceLines(a, inside) + InterfaceLines(b, false)
  {
    if a == [] {
      assert a + b == b;
    } else {
      assert (a + b)[1..] == a[1..] + b;
      InterfaceSplits(a[1..], b, if IsHeader(a[0]) then IsInterface(a[0]) else inside);
      if !IsHeader(a[0]) {
        Regroup(if inside then Normal([a[0]]) else [], InterfaceLines(a[1..], inside), InterfaceLines(b, false));
      }
    }
  }

  lemma {:induction false} NoHeaderInterface(lines: seq<string>)
    requires forall k :: 0 <= k < |lines| ==> !IsHeader(lines[k])
    ensures InterfaceLines(lines, false) == []
  {
    if lines != [] {
      NoHeaderInterface(lines[1..]);
    }
  }

  /** One whole [Peer] section in front of others. */
  lemma PeerInFront(block: seq<string>, rest: seq<string>, inside: bool)
    requires block != [] && IsPeer(block[0]) && forall k :: 1 <= k < |block| ==> !IsHeader(block[k])
    requires rest == [] || IsHeader(rest[0])
    ensures Peers(block + rest) == [Normal(block[1..])] + Peers(rest)
    ensures InterfaceLines(block + rest, inside) == InterfaceLines(rest, inside)
  {
    var lines, n := block + rest, |block|;
    PeerIsHeader(block[0]);
    assert lines[1..] == block[1..] + rest && lines[1..n] == block[1..] && lines[n..] == rest;
    BodySplits(block[1..], rest);
    BodyOfAll(block[1..]);
    InterfaceSplits(block[1..], rest, false);
    NoHeaderInterface(block[1..]);
  }

  lemma {:induction false} BodyOfAll(lines: seq<string>)
    requires forall k :: 0 <= k < |lines| ==> !IsHeader(lines[k])
    ensures Body(lines) == |lines|
  {
    if lines != [] {
      BodyOfAll(lines[1..]);
    }
  }

  // --------------------------------------------- what the removal does to any file

  /** The lines that belong to whatever section is open in front of them. */
  function Own(lines: seq<string>): seq<string> {
    Normal(lines[..Body(lines)])
  }

  /** The removal takes each section with the key as a whole: no line in it opens a bracket
      without closing it; or only what comes before such a line, which has the key, while the
      rest is left behind where it belongs to no section that counts. `owned`: a peer that
      stays, or an interface, is open in front of the lines. */
  predicate CutsClean(lines: seq<string>, key: string, owned: bool)
    decreases |lines|
  {
    if lines == [] then true
    else if IsHeader(lines[0]) && !IsPeer(lines[0]) then CutsClean(lines[1..], key, IsInterface(lines[0]))
    else if !IsPeer(lines[0]) then CutsClean(lines[1..], key, owned)
    else
      var end, cut := 1 + Body(lines[1..]), 1 + Block(lines[1..]);
      if !HasKey(lines[..end], false, key) then CutsClean(lines[end..], key, true)
      else if cut != end && (owned || !HasKey(lines[..cut], false, key)) then false
      else CutsClean(lines[end..], key, owned)
  }

  /** Of the peers exactly those with the key are gone, and the other lines that count are as they were. */
  predicate TakesThePeerOnly(lines: seq<string>, key: string, owned: bool) {
    var out := Removed(lines, key).0;
    && Peers(out) == Others(Peers(lines), key)
    && InterfaceLines(out, false) == InterfaceLines(lines, false)
    && (owned ==> Own(out) == Own(lines))
  }

  lemma OwnInFront(line: string, rest: seq<string>)
    ensures Own([line] + rest) == if IsHeader(line) then [] else Normal([line]) + Own(rest)
  {
    var lines := [line] + rest;
    assert lines[1..] == rest;
    if !IsHeader(line) {
      var n := Body(rest);
      assert lines[..1 + n] == [line] + rest[..n];
      NormalSplits([line], rest[..n]);
    }
  }

  lemma {:induction false} InterfaceOwn(lines: seq<string>)
    ensures InterfaceLines(lines, true) == Own(lines) + InterfaceLines(lines, false)
  {
    if lines != [] {
      var rest := lines[1..];
      assert lines == [lines[0]] + rest;
      OwnInFront(lines[0], rest);
      if IsHeader(lines[0]) {
        assert [] + InterfaceLines(lines, false) == InterfaceLines(lines, false);
      } else {
        InterfaceOwn(rest);
        Regroup(Normal([lines[0]]), Own(rest), InterfaceLines(rest, false));
        assert [] + InterfaceLines(rest, false) == InterfaceLines(rest, false);
      }
    }
  }

  lemma PlainInFront(line: string, rest: seq<string>)
    requires !IsHeader(line)
    ensures Peers([line] + rest) == Peers(rest) && InterfaceLines([line] + rest, false) == InterfaceLines(rest, false)
    ensures Own([line] + rest) == Normal([line]) + Own(rest)
  {
    assert ([line] + rest)[1..] == rest && [] + InterfaceLines(rest, false) == InterfaceLines(rest, false);
    PeerIsHeader(line);
    OwnInFront(line, rest);
  }

  /** Lines without a header are nobody's but the open section's. */
  lemma {:induction false} LooseInFront(loose: seq<string>, rest: seq<string>)
    requires forall k :: 0 <= k < |loose| ==> !IsHeader(loose[k])
    ensures Peers(loose + rest) == Peers(rest) && InterfaceLines(loose + rest, false) == InterfaceLines(rest, false)
    ensures Own(loose + rest) == Normal(loose) + Own(rest)
  {
    if loose == [] {
      assert loose + rest == rest && [] + Own(rest) == Own(rest);
    } else {
      var a, more := loose[0], loose[1..];
      LooseInFront(more, rest);
      assert loose == [a] + more;
      Regroup([a], more, rest);
      PlainInFront(a, more + rest);
      NormalSplits([a], more);
      Regroup(Normal([a]), Normal(more), Own(rest));
    }
  }

  lemma StaysInFront(line: string, rest: seq<string>, key: string)
    requires !IsPeer(line)
    ensures Removed([line] + rest, key) == ([line] + Removed(rest, key).0, Removed(rest, key).1)
  {
    assert ([line] + rest)[1..] == rest;
  }

  lemma {:induction false} LooseStays(loose: seq<string>, rest: seq<string>, key: string)
    requires forall k :: 0 <= k < |loose| ==> !IsHeader(loose[k])
    ensures Removed(loose + rest, key) == (loose + Removed(rest, key).0, Removed(rest, key).1)
  {
    var out := Removed(rest, key).0;
    if loose == [] {
      assert loose + rest == rest && [] + out == out;
    } else {
      var a, more := loose[0], loose[1..];
      LooseStays(more, rest, key);
      assert loose == [a] + more;
      Regroup([a], more, rest);
      PeerIsHeader(a);
      StaysInFront(a, more + rest, key);
      Regroup([a], more, out);
    }
  }

  /** A whole section in front of any lines takes in those up to the next header. */
  lemma SectionTakesIn(section: seq<string>, rest: seq<string>)
    requires section != [] && IsPeer(section[0]) && forall k :: 1 <= k < |section| ==> !IsHeader(section[k])
    ensures Peers(section + rest) == [Normal(section[1..]) + Own(rest)] + Peers(rest)
    ensures InterfaceLines(section + rest, false) == InterfaceLines(rest, false) && Own(section + rest) == []
  {
    var own, more := rest[..Body(rest)], rest[Body(rest)..];
    assert rest == own + more;
    SectionAndOwn(section, own, more);
    Regroup(section, own, more);
    HeadOwnsNothing(section, rest);
  }

  lemma HeadOwnsNothing(section: seq<string>, rest: seq<string>)
    requires section != [] && IsPeer(section[0])
    ensures Own(section + rest) == []
  {
    PeerIsHeader(section[0]);
    assert section + rest == [section[0]] + (section[1..] + rest);
    OwnInFront(section[0], section[1..] + rest);
  }

  lemma SectionAndOwn(section: seq<string>, own: seq<string>, more: seq<string>)
    requires section != [] && IsPeer(section[0]) && forall k :: 1 <= k < |section| ==> !IsHeader(section[k])
    requires forall k :: 0 <= k < |own| ==> !IsHeader(own[k])
    requires more == [] || IsHeader(more[0])
    ensures Peers((section + own) + more) == [Normal(section[1..]) + Normal(own)] + Peers(own + more)
    ensures InterfaceLines((section + own) + more, false) == InterfaceLines(own + more, false)
  {
    LooseInFront(own, more);
    LongerSection(section, own);
    PeerInFront(section + own, more, false);
  }

  lemma LongerSection(section: seq<string>, own: seq<string>)
    requires section != [] && forall k :: 1 <= k < |section| ==> !IsHeader(section[k])
    requires forall k :: 0 <= k < |own| ==> !IsHeader(own[k])
    ensures forall k :: 1 <= k < |section + own| ==> !IsHeader((section + own)[k])
    ensures Normal((section + own)[1..]) == Normal(section[1..]) + Normal(own)
  {
    assert (section + own)[1..] == section[1..] + own;
    NormalSplits(section[1..], own);
    assert forall k :: 1 <= k < |section + own| ==>
      (section + own)[k] == if k < |section| then section[k] else own[k - |section|];
  }

  lemma {:induction false} BlockWithinBody(lines: seq<string>)
    ensures Block(lines) <= Body(lines)
  {
    if lines != [] && !Opens(lines[0]) {
      BlockWithinBody(lines[1..]);
    }
  }

  lemma OpensCounts(lines: seq<string>)
    requires lines != [] && Opens(lines[0])
    ensures Normal(lines) != []
  {
  }

  /** One [Peer] section of a file: the block that the removal looks at, and what else belongs to it. */
  predicate Parts(lines: seq<string>, block: seq<string>, left: seq<string>, rest: seq<string>) {
    && lines == (block + left) + rest && block != [] && IsPeer(block[0])
    && |block| == 1 + Block(lines[1..]) && |block + left| == 1 + Body(lines[1..])
    && (rest == [] || IsHeader(rest[0]))
    && (left != [] ==> Opens(left[0]))
    && (forall k :: 1 <= k < |block + left| ==> !IsHeader((block + left)[k]))
    && (forall k :: 0 <= k < |left| ==> !IsHeader(left[k]))
  }

  lemma SectionParts(lines: seq<string>) returns (block: seq<string>, left: seq<string>, rest: seq<string>)
    requires lines != [] && IsPeer(lines[0])
    ensures Parts(lines, block, left, rest)
  {
    var tail := lines[1..];
    var own;
    own, left, rest := BodyParts(tail);
    block := [lines[0]] + own;
    Regroup([lines[0]], own, left);
    Regroup([lines[0]], own + left, rest);
    NoHeaderBehind(lines[0], own + left);
    assert lines == [lines[0]] + tail;
  }

  lemma NoHeaderBehind(head: string, tail: seq<string>)
    requires forall k :: 0 <= k < |tail| ==> !IsHeader(tail[k])
    ensures forall k :: 1 <= k < |[head] + tail| ==> !IsHeader(([head] + tail)[k])
  {
    assert forall k :: 1 <= k < |[head] + tail| ==> ([head] + tail)[k] == tail[k - 1];
  }

  lemma BodyParts(lines: seq<string>) returns (own: seq<string>, left: seq<string>, rest: seq<string>)
    ensures lines == (own + left) + rest && |own| == Block(lines) && |own + left| == Body(lines)
    ensures (rest == [] || IsHeader(rest[0])) && (left != [] ==> Opens(left[0]))
    ensures forall k :: 0 <= k < |own + left| ==> !IsHeader((own + left)[k])
    ensures forall k :: 0 <= k < |left| ==> !IsHeader(left[k])
  {
    BlockWithinBody(lines);
    own, left, rest := lines[..Block(lines)], lines[Block(lines)..Body(lines)], lines[Body(lines)..];
    assert own + left == lines[..Body(lines)];
  }

  lemma PartsRemoved(lines: seq<string>, block: seq<string>, left: seq<string>, rest: seq<string>, key: string)
    requires Parts(lines, block, left, rest)
    ensures Removed(lines, key).0 ==
            if HasKey(block, false, key) then left + Removed(rest, key).0 else (block + left) + Removed(rest, key).0
  {
    var out := Removed(rest, key).0;
    Regroup(block, left, rest);
    BlockRemoved(block, left + rest, key);
    LooseStays(left, rest, key);
    Regroup(block, left, out);
  }

  lemma BlockRemoved(block: seq<string>, more: seq<string>, key: string)
    requires block != [] && IsPeer(block[0]) && |block| == 1 + Block((block + more)[1..])
    ensures Removed(block + more, key).0 ==
            if HasKey(block, false, key) then Removed(more, key).0 else block + Removed(more, key).0
  {
    assert (block + more)[..|block|] == block && (block + more)[|block|..] == more;
    RemovedHead(block + more, |block|, key);
  }

  lemma PartsCut(lines: seq<string>, block: seq<string>, left: seq<string>, rest: seq<string>, key: string, owned: bool)
    requires Parts(lines, block, left, rest)
    ensures CutsClean(lines, key, owned) <==>
            if !HasKey(block + left, false, key) then CutsClean(rest, key, true)
            else (left == [] || (!owned && HasKey(block, false, key))) && CutsClean(rest, key, owned)
    ensures HasKey(block, false, key) ==> HasKey(block + left, false, key)
  {
    assert lines[..|block|] == block && lines[|block + left|..] == rest && lines[..|block + left|] == block + left;
    SearchConcat(block, left, false, key);
  }

  lemma OwnOfOpened(rest: seq<string>)
    requires rest == [] || IsHeader(rest[0])
    ensures Own(rest) == []
  {
  }

  /** What a removal leaves behind can only add to a section. */
  lemma {:induction false} OnlyAdds(lines: seq<string>, key: string)
    ensures Own(lines) <= Own(Removed(lines, key).0)
    ensures |InterfaceLines(lines, false)| <= |InterfaceLines(Removed(lines, key).0, false)|
    decreases |lines|
  {
    if lines == [] {
    } else if !IsPeer(lines[0]) {
      var rest, out := lines[1..], Removed(lines[1..], key).0;
      OnlyAdds(rest, key);
      assert lines == [lines[0]] + rest && ([lines[0]] + out)[1..] == out;
      OwnInFront(lines[0], rest);
      OwnInFront(lines[0], out);
      InterfaceOwn(rest);
      InterfaceOwn(out);
    } else {
      var block, left, rest := SectionParts(lines);
      PartsRemoved(lines, block, left, rest, key);
      var out := Removed(rest, key).0;
      OnlyAdds(rest, key);
      SectionTakesIn(block + left, rest);
      SectionTakesIn(block + left, out);
      LooseInFront(left, out);
    }
  }

  /** In front of a header the two parts of an interface are the same as a whole exactly when each is. */
  lemma SameAsWhole(lines: seq<string>, key: string)
    ensures var out := Removed(lines, key).0;
            InterfaceLines(out, true) == InterfaceLines(lines, true)
            <==> InterfaceLines(out, false) == InterfaceLines(lines, false) && Own(out) == Own(lines)
  {
    var out := Removed(lines, key).0;
    OnlyAdds(lines, key);
    InterfaceOwn(lines);
    InterfaceOwn(out);
    if InterfaceLines(out, true) == InterfaceLines(lines, true) {
      assert |Own(out)| == |Own(lines)|;
      assert Own(out) == Own(lines);
      assert InterfaceLines(out, false) == InterfaceLines(out, true)[|Own(out)|..];
      assert InterfaceLines(lines, false) == InterfaceLines(lines, true)[|Own(lines)|..];
    }
  }

  lemma PlainLineStep(line: string, rest: seq<string>, key: string, owned: bool)
    requires !IsHeader(line)
    ensures TakesThePeerOnly([line] + rest, key, owned) <==> TakesThePeerOnly(rest, key, owned)
  {
    var out, n := Removed(rest, key).0, Normal([line]);
    LooseStays([line], rest, key);
    PlainInFront(line, rest);
    PlainInFront(line, out);
    assert (n + Own(out))[|n|..] == Own(out) && (n + Own(rest))[|n|..] == Own(rest);
  }

  lemma HeaderLineStep(line: string, rest: seq<string>, key: string, owned: bool)
    requires IsHeader(line) && !IsPeer(line)
    ensures TakesThePeerOnly([line] + rest, key, owned) <==> TakesThePeerOnly(rest, key, IsInterface(line))
  {
    var out := Removed(rest, key).0;
    assert ([line] + rest)[1..] == rest && ([line] + out)[1..] == out;
    OwnInFront(line, rest);
    OwnInFront(line, out);
    SameAsWhole(rest, key);
  }

  /** A section that keeps its peer: it must lack the key, and nothing may be added to it. */
  lemma KeptSectionStep(section: seq<string>, rest: seq<string>, out: seq<string>, key: string)
    requires section != [] && IsPeer(section[0]) && forall k :: 1 <= k < |section| ==> !IsHeader(section[k])
    requires rest == [] || IsHeader(rest[0])
    ensures Peers(section + out) == Others(Peers(section + rest), key) <==>
            !HasKey(section, false, key) && Peers(out) == Others(Peers(rest), key) && Own(out) == []
    ensures Own(section + out) == [] && Own(section + rest) == []
    ensures InterfaceLines(section + out, false) == InterfaceLines(out, false)
    ensures InterfaceLines(section + rest, false) == InterfaceLines(rest, false)
  {
    SectionTakesIn(section, rest);
    SectionTakesIn(section, out);
    OwnOfOpened(rest);
    BlockSearch(section, key);
    var peer := Normal(section[1..]);
    assert peer + [] == peer;
    PresentInFront(peer, Peers(rest), key);
    PresentInFront(peer + Own(out), Peers(out), key);
    KeyInMore(peer, Own(out), key);
    OthersLackTheKey(Peers(rest), key);
    var a, b := [peer + Own(out)] + Peers(out), [peer] + Others(Peers(rest), key);
    if a == b {
      assert a[0] == b[0] && |Own(out)| == 0 && a[1..] == Peers(out) && b[1..] == Others(Peers(rest), key);
    }
  }

  lemma {:induction false} KeyInMore(peer: seq<string>, more: seq<string>, key: string)
    ensures KeyIn(peer, key) ==> KeyIn(peer + more, key)
  {
    if peer != [] {
      assert (peer + more)[1..] == peer[1..] + more;
      KeyInMore(peer[1..], more, key);
    }
  }

  /** A section whose block is taken: what is left of it must not fall to anybody. */
  lemma TakenSectionStep(section: seq<string>, left: seq<string>, rest: seq<string>, key: string, owned: bool)
    requires section != [] && IsPeer(section[0]) && forall k :: 1 <= k < |section| ==> !IsHeader(section[k])
    requires forall k :: 0 <= k < |left| ==> !IsHeader(left[k])
    requires left != [] ==> Opens(left[0])
    requires rest == [] || IsHeader(rest[0])
    requires HasKey(section, false, key)
    ensures var out := Removed(rest, key).0;
            && Peers(left + out) == Peers(out) && Others(Peers(section + rest), key) == Others(Peers(rest), key)
            && InterfaceLines(left + out, false) == InterfaceLines(out, false)
            && InterfaceLines(section + rest, false) == InterfaceLines(rest, false)
            && (Own(left + out) == Own(section + rest) <==> left == [] && Own(out) == Own(rest))
  {
    var out := Removed(rest, key).0;
    LooseInFront(left, out);
    SectionTakesIn(section, rest);
    OwnOfOpened(rest);
    BlockSearch(section, key);
    assert Normal(section[1..]) + [] == Normal(section[1..]);
    PresentInFront(Normal(section[1..]), Peers(rest), key);
    if left != [] { OpensCounts(left); }
  }

  /** Of any file: the peers left are exactly those without the key, and interface and other
      peers are as they were, exactly when the removal cuts clean. */
  lemma {:induction false} RemovalIsExact(lines: seq<string>, key: string, owned: bool)
    ensures TakesThePeerOnly(lines, key, owned) <==> CutsClean(lines, key, owned)
    decreases |lines|
  {
    if lines == [] {
    } else if IsPeer(lines[0]) {
      SectionIsExact(lines, key, owned);
    } else {
      var rest := lines[1..];
      assert lines == [lines[0]] + rest;
      if IsHeader(lines[0]) {
        HeaderLineStep(lines[0], rest, key, owned);
        RemovalIsExact(rest, key, IsInterface(lines[0]));
      } else {
        PlainLineStep(lines[0], rest, key, owned);
        RemovalIsExact(rest, key, owned);
      }
    }
  }

  lemma SectionIsExact(lines: seq<string>, key: string, owned: bool)
    requires lines != [] && IsPeer(lines[0])
    ensures TakesThePeerOnly(lines, key, owned) <==> CutsClean(lines, key, owned)
    decreases |lines|, 0
  {
    var block, left, rest := SectionParts(lines);
    RemovalIsExact(rest, key, owned);
    RemovalIsExact(rest, key, true);
    PartsAreExact(lines, block, left, rest, key, owned);
  }

  lemma PartsAreExact(lines: seq<string>, block: seq<string>, left: seq<string>, rest: seq<string>, key: string,
    owned: bool)
    requires Parts(lines, block, left, rest)
    requires TakesThePeerOnly(rest, key, owned) <==> CutsClean(rest, key, owned)
    requires TakesThePeerOnly(rest, key, true) <==> CutsClean(rest, key, true)
    ensures TakesThePeerOnly(lines, key, owned) <==> CutsClean(lines, key, owned)
  {
    PartsRemoved(lines, block, left, rest, key);
    PartsCut(lines, block, left, rest, key, owned);
    OwnOfOpened(rest);
    if HasKey(block, false, key) {
      TakenSectionStep(block + left, left, rest, key, owned);
    } else {
      KeptSectionStep(block + left, rest, Removed(rest, key).0, key);
      assert block + [] == block;
    }
  }

  /** A sufficient condition that is easy to see: every bracket that a line opens is closed in it. */
  lemma {:induction false} WellFormedCutsClean(lines: seq<string>, key: string, owned: bool)
    requires WellFormed(lines)
    ensures CutsClean(lines, key, owned)
    decreases |lines|
  {
    if lines == [] {
    } else if !IsPeer(lines[0]) {
      WellFormedCutsClean(lines[1..], key, if IsHeader(lines[0]) then IsInterface(lines[0]) else owned);
    } else {
      var block, left, rest := SectionParts(lines);
      PartsCut(lines, block, left, rest, key, owned);
      assert left == [];
      assert forall k :: 0 <= k < |rest| ==> rest[k] == lines[|block + left| + k];
      WellFormedCutsClean(rest, key, owned);
      WellFormedCutsClean(rest, key, true);
    }
  }

  lemma BlockSearch(block: seq<string>, key: string)
    requires block != [] && IsPeer(block[0]) && forall k :: 1 <= k < |block| ==> !IsHeader(block[k])
    ensures HasKey(block, false, key) == KeyIn(Normal(block[1..]), key)
  {
    PeerIsHeader(block[0]);
    NoHeaderSearch(block[1..], true, key);
  }

  lemma PresentInFront(peer: seq<string>, rest: seq<seq<string>>, key: string)
    ensures Present([peer] + rest, key) == (KeyIn(peer, key) || Present(rest, key))
    ensures Others([peer] + rest, key) == if KeyIn(peer, key) then Others(rest, key) else [peer] + Others(rest, key)
  {
    assert ([peer] + rest)[1..] == rest;
  }

  // ------------------------------------------------- blank space means nothing

  lemma {:induction false} NormalTwice(lines: seq<string>)
    ensures Normal(Normal(lines)) == Normal(lines)
    ensures forall k :: 0 <= k < |Normal(lines)| ==>
      Normal(lines)[k] != "" && Trim(Normal(lines)[k]) == Normal(lines)[k]
  {
    if lines != [] {
      NormalTwice(lines[1..]);
      TrimTwice(lines[0]);
      if Trim(lines[0]) != "" {
        NormalSplits([Trim(lines[0])], Normal(lines[1..]));
        NormalOfOne(Trim(lines[0]));
      } else {
        assert Normal(lines) == Normal(lines[1..]);
      }
    }
  }

  lemma {:induction false} NormalOpens(lines: seq<string>)
    requires lines != [] && IsHeader(lines[0])
    ensures Normal(lines) == [Trim(lines[0])] + Normal(lines[1..]) && Normal(lines)[1..] == Normal(lines[1..])
    ensures IsHeader(Normal(lines)[0]) && IsPeer(Normal(lines)[0]) == IsPeer(lines[0])
    ensures IsInterface(Normal(lines)[0]) == IsInterface(lines[0])
  {
    TrimTwice(lines[0]);
  }

  lemma {:induction false} NoHeaderNormal(lines: seq<string>)
    requires forall k :: 0 <= k < |lines| ==> !IsHeader(lines[k])
    ensures forall k :: 0 <= k < |Normal(lines)| ==> !IsHeader(Normal(lines)[k])
  {
    if lines != [] {
      NoHeaderNormal(lines[1..]);
      TrimTwice(lines[0]);
    }
  }

  lemma {:induction false} PeersOfNormal(lines: seq<string>)
    ensures Peers(Normal(lines)) == Peers(lines)
    decreases |lines|
  {
    if lines == [] {
    } else if !IsPeer(lines[0]) {
      PeersOfNormal(lines[1..]);
      TrimTwice(lines[0]);
      if Trim(lines[0]) == "" {
        assert Normal(lines) == Normal(lines[1..]);
      } else {
        assert Normal(lines) == [Trim(lines[0])] + Normal(lines[1..]) && Normal(lines)[1..] == Normal(lines[1..]);
      }
    } else {
      var n := 1 + Body(lines[1..]);
      var block, rest := lines[..n], lines[n..];
      assert lines == block + rest && block[1..] == lines[1..n]
        && (forall k :: 1 <= k < n ==> block[k] == lines[1..][k - 1]);
      PeerIsHeader(lines[0]);
      NormalSplits(block, rest);
      NormalOpens(block);
      NoHeaderNormal(block[1..]);
      if rest != [] { NormalOpens(rest); }
      PeersOfNormal(rest);
      PeerInFront(Normal(block), Normal(rest), false);
      NormalTwice(block[1..]);
    }
  }

  lemma {:induction false} InterfaceOfNormal(lines: seq<string>, inside: bool)
    ensures InterfaceLines(Normal(lines), inside) == InterfaceLines(lines, inside)
  {
    if lines != [] {
      var t := Trim(lines[0]);
      TrimTwice(lines[0]);
      NormalOfOne(lines[0]);
      NormalOfOne(t);
      InterfaceOfNormal(lines[1..], if IsHeader(lines[0]) then IsInterface(lines[0]) else inside);
      var rest := Normal(lines[1..]);
      if t == "" {
        assert Normal(lines) == rest && !IsHeader(lines[0]);
        assert InterfaceLines(lines, inside) == InterfaceLines(lines[1..], inside);
      } else {
        assert Normal(lines) == [t] + rest && ([t] + rest)[1..] == rest;
        assert IsHeader(t) == IsHeader(lines[0]) && IsInterface(t) == IsInterface(lines[0]);
        assert InterfaceLines([t] + rest, inside) ==
               if IsHeader(t) then InterfaceLines(rest, IsInterface(t))
                 else (if inside then Normal([t]) else []) + InterfaceLines(rest, inside);
      }
    }
  }

  /** Two texts that differ only in blank space around lines mean the same. */
  lemma SameMeaning(a: seq<string>, b: seq<string>)
    requires Normal(a) == Normal(b)
    ensures Peers(a) == Peers(b) && InterfaceLines(a, false) == InterfaceLines(b, false)
  {
    PeersOfNormal(a);
    PeersOfNormal(b);
    InterfaceOfNormal(a, false);
    InterfaceOfNormal(b, false);
  }

  lemma {:induction false} RemovedLinesAreLines(lines: seq<string>, key: string)
    requires forall k :: 0 <= k < |lines| ==> '\n' !in lines[k]
    ensures forall k :: 0 <= k < |Removed(lines, key).0| ==> '\n' !in Removed(lines, key).0[k]
    decreases |lines|
  {
    if lines == [] {
    } else if !IsPeer(lines[0]) {
      RemovedLinesAreLines(lines[1..], key);
    } else {
      RemovedLinesAreLines(lines[1 + Block(lines[1..])..], key);
    }
  }

  /** On the text, of any file: the peers left are exactly those without the key, and the
      interface and the other peers are untouched, exactly when the removal cuts clean, as it
      does whenever no line opens a bracket without closing it. Then no peer with the key is
      left, and "found" is the truth. */
  lemma RemovalKeepsTheRest(config: string, key: string)
    ensures Peers(Lines(RemovedText(config, key))) == Others(Peers(Lines(config)), key)
            && InterfaceLines(Lines(RemovedText(config, key)), false) == InterfaceLines(Lines(config), false)
            <==> CutsClean(Lines(config), key, false)
    ensures WellFormed(Lines(config)) ==> CutsClean(Lines(config), key, false)
    ensures CutsClean(Lines(config), key, false) ==>
              && !Present(Peers(Lines(RemovedText(config, key))), key)
              && (Removed(Lines(config), key).1 <==> Present(Peers(Lines(config)), key))
  {
    var out := Removed(Lines(config), key).0;
    RemovedTextMeans(config, key);
    RemovalIsExact(Lines(config), key, false);
    if WellFormed(Lines(config)) { WellFormedCutsClean(Lines(config), key, false); }
    OthersLackTheKey(Peers(Lines(config)), key);
    FoundWasThere(Lines(config), false, key);
    SearchFindsPeers(Lines(config), key);
  }

  lemma RemovedTextMeans(config: string, key: string)
    ensures var out, text := Removed(Lines(config), key).0, Lines(RemovedText(config, key));
            Peers(text) == Peers(out) && InterfaceLines(text, false) == InterfaceLines(out, false)
  {
    var out := Removed(Lines(config), key).0;
    var joined := Join(out, "\n");
    PartsLackSeparator(config, '\n');
    RemovedLinesAreLines(Lines(config), key);
    if out == [] {
      assert Lines(joined) == [""] && Normal([""]) == [];
    } else {
      SplitOfJoin(out, '\n');
    }
    TrimKeepsLines(joined);
    SpaceBehind(Trim(joined), '\n');
    SameMeaning(Lines(RemovedText(config, key)), out);
  }

  // ------------------------------------------------------------------ the append

  /** One field of a section. */
  function Field(name: string, value: string): string {
    name + " = " + value
  }

  datatype Kind = PublicKey | PresharedKey | AllowedIPs | Endpoint | PersistentKeepalive

  function NameOf(kind: Kind): string {
    match kind
    case PublicKey => "PublicKey"
    case PresharedKey => "PresharedKey"
    case AllowedIPs => "AllowedIPs"
    case Endpoint => "Endpoint"
    case PersistentKeepalive => "PersistentKeepalive"
  }

  type Fields = seq<(Kind, string)>

  function FieldLines(fields: Fields): seq<string> {
    seq(|fields|, k requires 0 <= k < |fields| => Field(NameOf(fields[k].0), fields[k].1))
  }

  datatype Peer = Peer(key: string, preshared: string, allowed: seq<string>, endpoint: string, keepalive: int)

  function PeerFields(p: Peer): Fields {
    [(PublicKey, p.key)]
    + Optional(PresharedKey, p.preshared)
    + [(AllowedIPs, Join(p.allowed, ", "))]
    + Optional(Endpoint, p.endpoint)
    + Optional(PersistentKeepalive, if p.keepalive > 0 then Digits(p.keepalive) else "")
  }

  function Optional(kind: Kind, value: string): Fields {
    if value != "" then [(kind, value)] else []
  }

  function PeerLines(p: Peer): seq<string> {
    FieldLines(PeerFields(p))
  }

  /** Values that fit on one line; a key as the validation lets it through. */
  predicate Plain(p: Peer) {
    && p.key != "" && Trim(p.key) == p.key && '\n' !in p.key
    && '\n' !in p.preshared && '\n' !in p.endpoint && '\n' !in Join(p.allowed, ", ")
  }

  function AppendedText(config: string, p: Peer): string {
    Trim(config) + "\n" + Terminated(["", "[Peer]"] + PeerLines(p))
  }

  /** appendWireGuardPeer. */
  method Append(config: string, p: Peer) returns (r: Option<string>)
    ensures r == if Present(Peers(Lines(config)), p.key) then None else Some(AppendedText(config, p))
  {
    var present := HasPeer(config, p.key);
    if present { return None; }
    ghost var head := Trim(config) + "\n";
    var b := WriteLine(Trim(config) + "\n", head, [], "");
    b := WriteLine(b, head, [""], "[Peer]");
    b := WriteFields(b, head, ["", "[Peer]"], p);
    return Some(b);
  }

  method WriteFields(b: string, ghost head: string, ghost lines: seq<string>, p: Peer) returns (out: string)
    requires b == head + Terminated(lines)
    ensures out == head + Terminated(lines + PeerLines(p))
  {
    ghost var fields;
    out, fields := WriteKeyFields(b, head, lines, p);
    out, fields := WriteOptional(out, head, lines, fields, Endpoint, p.endpoint);
    var keepalive := if p.keepalive > 0 then Digits(p.keepalive) else "";
    out, fields := WriteOptional(out, head, lines, fields, PersistentKeepalive, keepalive);
  }

  /** The keys and the addresses. */
  method WriteKeyFields(b: string, ghost head: string, ghost lines: seq<string>, p: Peer)
    returns (out: string, ghost fields: Fields)
    requires b == head + Terminated(lines)
    ensures fields == [(PublicKey, p.key)] + Optional(PresharedKey, p.preshared) + [(AllowedIPs, Join(p.allowed, ", "))]
    ensures out == head + Terminated(lines + FieldLines(fields))
  {
    fields := [];
    assert lines + FieldLines(fields) == lines;
    out, fields := WriteField(b, head, lines, fields, PublicKey, p.key);
    out, fields := WriteOptional(out, head, lines, fields, PresharedKey, p.preshared);
    out, fields := WriteField(out, head, lines, fields, AllowedIPs, Join(p.allowed, ", "));
  }

  /** A field that is left out when it has no value. */
  method WriteOptional(b: string, ghost head: string, ghost lines: seq<string>, ghost fields: Fields, kind: Kind,
    value: string)
    returns (out: string, ghost more: Fields)
    requires b == head + Terminated(lines + FieldLines(fields))
    ensures more == fields + Optional(kind, value) && out == head + Terminated(lines + FieldLines(more))
  {
    out, more := b, fields;
    if value != "" {
      out, more := WriteField(b, head, lines, fields, kind, value);
    }
    assert value == "" ==> fields + Optional(kind, value) == fields;
  }

  method WriteField(b: string, ghost head: string, ghost lines: seq<string>, ghost fields: Fields, kind: Kind,
    value: string)
    returns (out: string, ghost more: Fields)
    requires b == head + Terminated(lines + FieldLines(fields))
    ensures more == fields + [(kind, value)] && out == head + Terminated(lines + FieldLines(more))
  {
    more := fields + [(kind, value)];
    out := WriteLine(b, head, lines + FieldLines(fields), Field(NameOf(kind), value));
    assert lines + FieldLines(fields) + [Field(NameOf(kind), value)] == lines + FieldLines(more);
  }

  lemma AppendedLines(config: string, p: Peer)
    requires Plain(p)
    ensures Lines(AppendedText(config, p)) == (Lines(Trim(config)) + [""]) + Section(p)
  {
    FieldsOnOneLine(p);
    LinesBehind(Trim(config), "", "[Peer]", PeerLines(p));
  }

  lemma LinesBehind(text: string, a: string, b: string, lines: seq<string>)
    requires '\n' !in a && '\n' !in b && forall k :: 0 <= k < |lines| ==> '\n' !in lines[k]
    ensures Lines(text + "\n" + Terminated([a, b] + lines)) == (Lines(text) + [a]) + ([b] + lines + [""])
  {
    var more := [a, b] + lines;
    TwoInFront(a, b, lines);
    LinesOfText(text, more);
    Regroup(Lines(text), [a], [b] + lines + [""]);
  }

  lemma LinesOfText(text: string, lines: seq<string>)
    requires forall k :: 0 <= k < |lines| ==> '\n' !in lines[k]
    ensures Lines(text + "\n" + Terminated(lines)) == Lines(text) + (lines + [""])
  {
    LinesOfTerminated(lines);
    SplitAt(text, Terminated(lines), '\n');
  }

  lemma TwoInFront(a: string, b: string, lines: seq<string>)
    requires '\n' !in a && '\n' !in b && forall k :: 0 <= k < |lines| ==> '\n' !in lines[k]
    ensures forall k :: 0 <= k < |[a, b] + lines| ==> '\n' !in ([a, b] + lines)[k]
    ensures [a, b] + lines + [""] == [a] + ([b] + lines + [""])
  {
  }

  lemma FieldsOnOneLine(p: Peer)
    requires Plain(p)
    ensures forall k :: 0 <= k < |PeerLines(p)| ==> '\n' !in PeerLines(p)[k]
  {
    var fields := PeerFields(p);
    assert forall k :: 0 <= k < |fields| ==> '\n' !in fields[k].1;
    forall k | 0 <= k < |fields| ensures '\n' !in PeerLines(p)[k] {
      FieldOnOneLine(fields[k].0, fields[k].1);
    }
  }

  lemma FieldOnOneLine(kind: Kind, value: string)
    requires '\n' !in value
    ensures '\n' !in Field(NameOf(kind), value)
  {
    NameFacts(kind);
  }

  /** The five names, and the only one that is taken for a key. */
  lemma NameFacts(kind: Kind)
    ensures Name(NameOf(kind)) && '\n' !in NameOf(kind)
    ensures EqualFold(NameOf(kind), "PublicKey") <==> kind.PublicKey?
  {
    NameLength(kind);
    assert |ToLower(NameOf(kind))| == |NameOf(kind)| && |ToLower("PublicKey")| == 9;
  }

  lemma NameLength(kind: Kind)
    ensures |NameOf(kind)| == 9 <==> kind.PublicKey?
  {
  }

  // ------------------------------------------------- what one field line says

  /** A line that starts with an ordinary character keeps its beginning when trimmed. */
  lemma {:induction false} TrimKeepsPrefix(s: string, k: nat)
    requires k < |s| && !IsSpace(s[0]) && !IsSpace(s[k])
    ensures |Trim(s)| > k && Trim(s) == s[..|Trim(s)|]
  {
    if IsSpace(s[|s| - 1]) {
      TrimKeepsPrefix(s[..|s| - 1], k);
    } else {
      assert s[..|s|] == s;
    }
  }

  predicate Name(name: string) {
    && name != "" && name[0] != '[' && !IsSpace(name[0]) && !IsSpace(name[|name| - 1]) && '=' !in name
  }

  /** A field line, trimmed and cut at its first "=". */
  lemma FieldTrimmed(name: string, value: string) returns (rest: string)
    requires Name(name)
    ensures var t := Trim(Field(name, value));
            && t == (name + " ") + ['='] + rest && IndexOf(t, '=') == Some(|name| + 1)
            && t[0] == name[0] && t[..|name| + 1] == name + " " && t[|name| + 2..] == rest
    ensures value != "" && Trim(value) == value ==> rest == " " + value
  {
    var line, n := Field(name, value), |name|;
    assert line == (name + " ") + ['='] + (" " + value);
    TrimKeepsPrefix(line, n + 1);
    var t := Trim(line);
    rest := t[n + 2..];
    assert t == (name + " ") + ['='] + rest;
    IndexAfter(name + " ", rest, '=');
    if value != "" && Trim(value) == value {
      FieldIsTrimmed(name, value);
    }
  }

  lemma FieldIsTrimmed(name: string, value: string)
    requires Name(name) && value != "" && Trim(value) == value
    ensures Trim(Field(name, value)) == Field(name, value)
  {
    var line := Field(name, value);
    assert line[0] == name[0] && line[|line| - 1] == value[|value| - 1];
  }

  lemma FieldCuts(name: string, value: string, key: string)
    requires Name(name)
    ensures !Opens(Field(name, value))
    ensures KeyLine(Field(name, value), key) ==> EqualFold(name, "PublicKey")
    ensures value != "" && Trim(value) == value ==>
      (KeyLine(Field(name, value), key) <==> EqualFold(name, "PublicKey") && value == key)
  {
    var rest := FieldTrimmed(name, value);
    TrimRight(name, ' ');
    assert Trim(name) == name;
    if value != "" && Trim(value) == value {
      assert (" " + value)[1..] == value;
    }
  }

  lemma OnlyOnePublicKey(p: Peer, key: string)
    requires Plain(p)
    ensures forall k :: 0 <= k < |PeerLines(p)| ==> !Opens(PeerLines(p)[k])
    ensures KeyLine(PeerLines(p)[0], key) <==> key == p.key
    ensures forall k :: 1 <= k < |PeerLines(p)| ==> !KeyLine(PeerLines(p)[k], key)
  {
    var fields := PeerFields(p);
    forall k | 0 <= k < |fields|
      ensures !Opens(PeerLines(p)[k])
      ensures k == 0 ==> (KeyLine(PeerLines(p)[k], key) <==> key == p.key)
      ensures k > 0 ==> !KeyLine(PeerLines(p)[k], key)
    {
      NameFacts(fields[k].0);
      FieldCuts(NameOf(fields[k].0), fields[k].1, key);
      assert fields[k].0.PublicKey? <==> k == 0;
    }
  }

  // ---------------------------------------------------- append and removal together

  function EndsInPeer(lines: seq<string>, inPeer: bool): bool {
    if lines == [] then inPeer else EndsInPeer(lines[1..], if IsHeader(lines[0]) then IsPeer(lines[0]) else inPeer)
  }

  lemma {:induction false} SearchConcat(a: seq<string>, b: seq<string>, inPeer: bool, key: string)
    ensures HasKey(a + b, inPeer, key) == (HasKey(a, inPeer, key) || HasKey(b, EndsInPeer(a, inPeer), key))
  {
    if a == [] {
      assert a + b == b;
    } else {
      assert (a + b)[1..] == a[1..] + b;
      SearchConcat(a[1..], b, if IsHeader(a[0]) then IsPeer(a[0]) else inPeer, key);
    }
  }

  /** Of any file whatever: what is removed was there, and otherwise nothing changes. */
  lemma {:induction false} FoundWasThere(lines: seq<string>, inPeer: bool, key: string)
    ensures Removed(lines, key).1 ==> HasKey(lines, inPeer, key)
    ensures !Removed(lines, key).1 ==> Removed(lines, key).0 == lines
    decreases |lines|
  {
    if lines == [] {
    } else if !IsPeer(lines[0]) {
      FoundWasThere(lines[1..], if IsHeader(lines[0]) then IsPeer(lines[0]) else inPeer, key);
    } else {
      var n := 1 + Block(lines[1..]);
      PeerIsHeader(lines[0]);
      assert lines == lines[..n] + lines[n..];
      SearchConcat(lines[..n], lines[n..], inPeer, key);
      FoundWasThere(lines[n..], EndsInPeer(lines[..n], inPeer), key);
    }
  }

  lemma {:induction false} BlockSplits(a: seq<string>, b: seq<string>)
    requires b == [] || Opens(b[0])
    ensures Block(a + b) == Block(a)
  {
    if a == [] {
      assert a + b == b;
    } else {
      assert (a + b)[1..] == a[1..] + b;
      BlockSplits(a[1..], b);
    }
  }

  lemma {:induction false} RemovedSplits(a: seq<string>, b: seq<string>, key: string)
    requires b == [] || Opens(b[0])
    ensures Removed(a + b, key) == (Removed(a, key).0 + Removed(b, key).0, Removed(a, key).1 || Removed(b, key).1)
    decreases |a|
  {
    if a == [] {
      assert a + b == b && [] + Removed(b, key).0 == Removed(b, key).0;
    } else {
      var n := if IsPeer(a[0]) then 1 + Block(a[1..]) else 1;
      RemovedSplits(a[n..], b, key);
      FirstStep(a, b, n, key);
      Regroup(a[..n], Removed(a[n..], key).0, Removed(b, key).0);
    }
  }

  /** The first turn of the loop sees only the first block. */
  lemma FirstStep(a: seq<string>, b: seq<string>, n: nat, key: string)
    requires a != [] && (b == [] || Opens(b[0]))
    requires n == if IsPeer(a[0]) then 1 + Block(a[1..]) else 1
    ensures n <= |a|
    ensures var has := IsPeer(a[0]) && HasKey(a[..n], false, key);
            && Removed(a, key) ==
               (if has then Removed(a[n..], key).0 else a[..n] + Removed(a[n..], key).0, has || Removed(a[n..], key).1)
            && Removed(a + b, key) ==
               (if has then Removed(a[n..] + b, key).0
                 else a[..n] + Removed(a[n..] + b, key).0, has || Removed(a[n..] + b, key).1)
  {
    var ab := a + b;
    assert ab[1..] == a[1..] + b;
    BlockSplits(a[1..], b);
    assert ab[..n] == a[..n] && ab[n..] == a[n..] + b;
    RemovedHead(ab, n, key);
    RemovedHead(a, n, key);
  }

  /** One section with the key, removed by itself. */
  lemma SectionGoes(block: seq<string>, key: string)
    requires block != [] && IsPeer(block[0]) && (forall k :: 1 <= k < |block| ==> !Opens(block[k]))
    requires |block| > 1 && KeyLine(block[1], key)
    ensures Removed(block, key) == ([], true)
  {
    var rest := block[1..];
    PeerIsHeader(block[0]);
    AllInBlock(rest);
    assert block[..|block|] == block && block[|block|..] == [];
    assert HasKey(rest, true, key) by { assert rest[0] == block[1] && !IsHeader(rest[0]); }
  }

  /** The section that is appended. */
  function Section(p: Peer): seq<string> {
    ["[Peer]"] + PeerLines(p) + [""]
  }

  lemma SectionFacts(p: Peer, key: string)
    requires Plain(p)
    ensures var b := Section(p);
            && |b| == |PeerLines(p)| + 2 > 2 && IsPeer(b[0]) && b[1..] == PeerLines(p) + [""]
            && (forall k :: 1 <= k < |b| ==> !Opens(b[k]))
            && (KeyLine(b[1], key) <==> key == p.key)
  {
    OnlyOnePublicKey(p, key);
    HeadingIsPeer();
    SectionShape("[Peer]", PeerLines(p));
  }

  lemma HeadingIsPeer()
    ensures IsPeer("[Peer]")
  {
    assert Trim("[Peer]") == "[Peer]";
  }

  lemma SectionShape(header: string, lines: seq<string>)
    requires lines != [] && forall k :: 0 <= k < |lines| ==> !Opens(lines[k])
    ensures var b := [header] + lines + [""];
            && |b| == |lines| + 2 && b[0] == header && b[1] == lines[0] && b[1..] == lines + [""]
            && forall k :: 1 <= k < |b| ==> !Opens(b[k])
  {
    var b := [header] + lines + [""];
    assert forall k :: 1 <= k < |b| ==> b[k] == if k == |b| - 1 then "" else lines[k - 1];
  }

  lemma {:induction false} AllInBlock(lines: seq<string>)
    requires forall k :: 0 <= k < |lines| ==> !Opens(lines[k])
    ensures Block(lines) == |lines|
  {
    if lines != [] {
      AllInBlock(lines[1..]);
    }
  }

  lemma {:induction false} JoinOfSplit(s: string, sep: char)
    ensures Join(Split(s, sep), [sep]) == s
  {
    if s != "" {
      JoinOfSplit(s[1..], sep);
      var rest := Split(s[1..], sep);
      if s[0] == sep {
        assert ([""] + rest)[1..] == rest;
      } else {
        assert ([[s[0]] + rest[0]] + rest[1..])[1..] == rest[1..];
      }
      assert s == [s[0]] + s[1..];
    }
  }

  lemma {:induction false} JoinBlank(lines: seq<string>)
    requires lines != []
    ensures Join(lines + [""], "\n") == Join(lines, "\n") + "\n"
  {
    assert (lines + [""])[1..] == lines[1..] + [""];
    if |lines| > 1 {
      JoinBlank(lines[1..]);
    }
  }

  /** Without the key in it, the old part of the file stays as it is. */
  lemma OldPartStays(config: string, key: string)
    requires !Present(Peers(Lines(config)), key)
    ensures Removed(Lines(Trim(config)) + [""], key) == (Lines(Trim(config)) + [""], false)
  {
    var a := Lines(Trim(config)) + [""];
    SameOldPart(config);
    SearchFindsPeers(a, key);
    FoundWasThere(a, false, key);
  }

  lemma SameOldPart(config: string)
    ensures Peers(Lines(Trim(config)) + [""]) == Peers(Lines(config))
    ensures InterfaceLines(Lines(Trim(config)) + [""], false) == InterfaceLines(Lines(config), false)
  {
    NormalSplits(Lines(Trim(config)), [""]);
    NormalOfOne("");
    TrimKeepsLines(config);
    SameMeaning(Lines(Trim(config)) + [""], Lines(config));
  }

  lemma OldPartAsText(config: string)
    ensures Trim(Join(Lines(Trim(config)) + [""], "\n")) == Trim(config)
  {
    JoinBlank(Lines(Trim(config)));
    JoinOfSplit(Trim(config), '\n');
    TrimRight(Trim(config), '\n');
    TrimTwice(config);
  }

  /** Removing the peer that was just appended gives back the trimmed file. No condition on the
      rest of the file is needed. */
  lemma RemovalUndoesAppend(config: string, p: Peer)
    requires Plain(p) && !Present(Peers(Lines(config)), p.key)
    ensures RemovedText(AppendedText(config, p), p.key) == Trim(config) + "\n"
    ensures Removed(Lines(AppendedText(config, p)), p.key).1
  {
    AppendedLines(config, p);
    SectionFacts(p, p.key);
    SectionGoes(Section(p), p.key);
    PeerIsHeader(Section(p)[0]);
    OldPartStays(config, p.key);
    OnlyOldPartStays(Lines(Trim(config)) + [""], Section(p), p.key);
    OldPartAsText(config);
  }

  lemma OnlyOldPartStays(a: seq<string>, b: seq<string>, key: string)
    requires Removed(a, key) == (a, false) && Removed(b, key) == ([], true) && b != [] && Opens(b[0])
    ensures Removed(a + b, key) == (a, true)
  {
    RemovedSplits(a, b, key);
    assert a + [] == a;
  }

  /** The append adds one peer, with that key only, and touches nothing else. */
  lemma AppendKeepsTheRest(config: string, p: Peer, key: string)
    requires Plain(p)
    ensures Peers(Lines(AppendedText(config, p))) == Peers(Lines(config)) + [Normal(PeerLines(p))]
    ensures InterfaceLines(Lines(AppendedText(config, p)), false) == InterfaceLines(Lines(config), false)
    ensures KeyIn(Normal(PeerLines(p)), key) <==> key == p.key
  {
    var a := Lines(Trim(config)) + [""];
    AppendedLines(config, p);
    SameOldPart(config);
    SectionFacts(p, key);
    NewSection(Section(p), PeerLines(p), key);
    PeersConcat(a, Section(p));
    InterfaceSplits(a, Section(p), false);
    OnlyOnePublicKey(p, key);
    OnlyFirst(PeerLines(p), key);
  }

  /** What one section means by itself. */
  lemma NewSection(b: seq<string>, fields: seq<string>, key: string)
    requires b != [] && IsPeer(b[0]) && b[1..] == fields + [""] && forall k :: 1 <= k < |b| ==> !Opens(b[k])
    ensures IsHeader(b[0]) && Peers(b) == [Normal(fields)] && InterfaceLines(b, false) == []
    ensures KeyIn(Normal(fields), key) <==> HasKey(fields, true, key)
  {
    PeerIsHeader(b[0]);
    assert Normal(fields + [""]) == Normal(fields) by {
      NormalSplits(fields, [""]);
      NormalOfOne("");
    }
    assert Peers(b + []) == [Normal(b[1..])] && InterfaceLines(b + [], false) == [] by { PeerInFront(b, [], false); }
    assert b + [] == b;
    assert KeyIn(Normal(fields), key) <==> HasKey(fields, true, key) by {
      assert forall k :: 0 <= k < |fields| ==> fields[k] == b[1..][k];
      NoHeaderSearch(fields, true, key);
    }
  }

  lemma {:induction false} OnlyFirst(lines: seq<string>, key: string)
    requires lines != [] && forall k :: 1 <= k < |lines| ==> !KeyLine(lines[k], key)
    requires forall k :: 0 <= k < |lines| ==> !IsHeader(lines[k])
    ensures HasKey(lines, true, key) <==> KeyLine(lines[0], key)
  {
    if |lines| > 1 {
      OnlyFirst(lines[1..], key);
    }
  }

  /** The first section of a file that starts with a peer. */
  lemma FirstPeer(lines: seq<string>) returns (n: nat)
    requires lines != [] && IsPeer(lines[0])
    ensures 1 <= n <= |lines| && lines == lines[..n] + lines[n..]
    ensures (forall k :: 1 <= k < n ==> !IsHeader(lines[..n][k])) && (lines[n..] == [] || IsHeader(lines[n..][0]))
  {
    n := 1 + Body(lines[1..]);
    assert forall k :: 1 <= k < n ==> lines[..n][k] == lines[1..][k - 1];
  }

  lemma {:induction false} PeersConcat(a: seq<string>, b: seq<string>)
    requires b == [] || IsHeader(b[0])
    ensures Peers(a + b) == Peers(a) + Peers(b)
    decreases |a|
  {
    if a == [] {
      assert a + b == b;
    } else if !IsPeer(a[0]) {
      assert (a + b)[1..] == a[1..] + b;
      PeersConcat(a[1..], b);
    } else {
      var n := FirstPeer(a);
      PeersConcat(a[n..], b);
      ConcatBehind(a[..n], a[n..], b);
    }
  }

  lemma ConcatBehind(block: seq<string>, rest: seq<string>, b: seq<string>)
    requires block != [] && IsPeer(block[0]) && forall k :: 1 <= k < |block| ==> !IsHeader(block[k])
    requires (rest == [] || IsHeader(rest[0])) && (b == [] || IsHeader(b[0]))
    requires Peers(rest + b) == Peers(rest) + Peers(b)
    ensures Peers((block + rest) + b) == Peers(block + rest) + Peers(b)
  {
    InFrontOfTwo(block, rest, b);
    PeerInFront(block, rest, false);
    GroupPeers([Normal(block[1..])], Peers(rest), Peers(b));
  }

  lemma InFrontOfTwo(block: seq<string>, rest: seq<string>, b: seq<string>)
    requires block != [] && IsPeer(block[0]) && forall k :: 1 <= k < |block| ==> !IsHeader(block[k])
    requires (rest == [] || IsHeader(rest[0])) && (b == [] || IsHeader(b[0]))
    ensures Peers((block + rest) + b) == [Normal(block[1..])] + Peers(rest + b)
  {
    Regroup(block, rest, b);
    assert rest + b == [] || IsHeader((rest + b)[0]);
    PeerInFront(block, rest + b, false);
  }

  lemma GroupPeers(a: seq<seq<string>>, b: seq<seq<string>>, c: seq<seq<string>>)
    ensures (a + b) + c == a + (b + c)
  {
  }

  // ------------------------------------------- where search and removal disagree

  /** A section ends at a closed bracket for the search, and at any opening one for the removal. */
  predicate Ends(line: string, closed: bool) {
    if closed then IsHeader(line) else Opens(line)
  }

  /** The key stands on line `j`, in the section that the [Peer] on line `i` opens. */
  ghost predicate Under(lines: seq<string>, i: int, j: int, key: string, closed: bool) {
    && 0 <= i < j < |lines| && IsPeer(lines[i]) && KeyLine(lines[j], key)
    && forall k :: i < k <= j ==> !Ends(lines[k], closed)
  }

  /** The scan of both, line by line. */
  function Seen(lines: seq<string>, inPeer: bool, key: string, closed: bool): bool {
    if lines == [] then false
    else if Ends(lines[0], closed) then Seen(lines[1..], IsPeer(lines[0]), key, closed)
    else (inPeer && KeyLine(lines[0], key)) || Seen(lines[1..], inPeer, key, closed)
  }

  /** What a scan looks at in a line. */
  datatype Mark = Mark(ends: bool, peer: bool, hit: bool)

  function Marks(lines: seq<string>, key: string, closed: bool): seq<Mark> {
    seq(|lines|, k requires 0 <= k < |lines| => Mark(Ends(lines[k], closed), IsPeer(lines[k]), KeyLine(lines[k], key)))
  }

  ghost predicate UnderMark(m: seq<Mark>, i: int, j: int, inPeer: bool) {
    && -1 <= i < j < |m|
    && (if i < 0 then inPeer else m[i].peer)
    && m[j].hit
    && forall k :: i < k <= j ==> !m[k].ends
  }

  function SeenMark(m: seq<Mark>, inPeer: bool): bool {
    if m == [] then false
    else if m[0].ends then SeenMark(m[1..], m[0].peer)
    else (inPeer && m[0].hit) || SeenMark(m[1..], inPeer)
  }

  lemma {:induction false} SeenIsUnder(m: seq<Mark>, inPeer: bool) returns (i: int, j: int)
    requires forall k :: 0 <= k < |m| && m[k].peer ==> m[k].ends
    requires SeenMark(m, inPeer)
    ensures UnderMark(m, i, j, inPeer)
  {
    if !m[0].ends && inPeer && m[0].hit { return -1, 0; }
    i, j := SeenIsUnder(m[1..], if m[0].ends then m[0].peer else inPeer);
    var at := if i < 0 && !m[0].ends then -1 else i + 1;
    assert forall k :: 0 < k <= j + 1 ==> m[k] == m[1..][k - 1];
    i, j := at, j + 1;
  }

  lemma {:induction false} UnderIsSeen(m: seq<Mark>, i: int, j: int, inPeer: bool)
    requires forall k :: 0 <= k < |m| && m[k].peer ==> m[k].ends
    requires UnderMark(m, i, j, inPeer)
    ensures SeenMark(m, inPeer)
    decreases |m|
  {
    if j > 0 {
      var at := if i < 0 then -1 else i - 1;
      assert forall k :: at < k <= j - 1 ==> m[1..][k] == m[k + 1];
      UnderIsSeen(m[1..], at, j - 1, if m[0].ends then m[0].peer else inPeer);
    }
  }

  lemma {:induction false} MarksSeen(lines: seq<string>, inPeer: bool, key: string, closed: bool)
    ensures SeenMark(Marks(lines, key, closed), inPeer) == Seen(lines, inPeer, key, closed)
  {
    if lines != [] {
      assert Marks(lines, key, closed)[1..] == Marks(lines[1..], key, closed);
      MarksSeen(lines[1..], if Ends(lines[0], closed) then IsPeer(lines[0]) else inPeer, key, closed);
    }
  }

  lemma MarksUnder(lines: seq<string>, i: int, j: int, key: string, closed: bool)
    ensures UnderMark(Marks(lines, key, closed), i, j, false) == Under(lines, i, j, key, closed)
  {
    var m := Marks(lines, key, closed);
    if 0 <= i < j < |lines| {
      assert forall k :: i < k <= j ==> m[k].ends == Ends(lines[k], closed);
      assert m[i].peer == IsPeer(lines[i]) && m[j].hit == KeyLine(lines[j], key);
      if UnderMark(m, i, j, false) {
        forall k | i < k <= j ensures !Ends(lines[k], closed) { assert !m[k].ends; }
      }
    }
  }

  lemma SeenExactly(lines: seq<string>, key: string, closed: bool)
    ensures Seen(lines, false, key, closed) <==> exists i, j :: Under(lines, i, j, key, closed)
  {
    var m := Marks(lines, key, closed);
    MarksSeen(lines, false, key, closed);
    forall k | 0 <= k < |lines| ensures m[k].peer ==> m[k].ends { PeerIsHeader(lines[k]); }
    if Seen(lines, false, key, closed) {
      var i, j := SeenIsUnder(m, false);
      MarksUnder(lines, i, j, key, closed);
    }
    if i, j :| Under(lines, i, j, key, closed) {
      MarksUnder(lines, i, j, key, closed);
      UnderIsSeen(m, i, j, false);
    }
  }

  lemma {:induction false} SearchSees(lines: seq<string>, inPeer: bool, key: string)
    ensures HasKey(lines, inPeer, key) == Seen(lines, inPeer, key, true)
  {
    if lines != [] {
      SearchSees(lines[1..], if IsHeader(lines[0]) then IsPeer(lines[0]) else inPeer, key);
    }
  }

  /** In a block, and up to the next opening bracket, both look at the same lines. */
  lemma {:induction false} BlockSees(lines: seq<string>, inPeer: bool, key: string)
    ensures Seen(lines, inPeer, key, false) <==>
            HasKey(lines[..Block(lines)], inPeer, key) || Seen(lines[Block(lines)..], false, key, false)
  {
    if lines == [] || Opens(lines[0]) {
      assert lines[..0] == [] && lines[0..] == lines;
    } else {
      var n := Block(lines[1..]);
      BlockSees(lines[1..], inPeer, key);
      assert lines[..1 + n] == [lines[0]] + lines[1..][..n] && lines[1 + n..] == lines[1..][n..];
      assert lines[..1 + n][1..] == lines[1..][..n];
    }
  }

  lemma {:induction false} RemovalSees(lines: seq<string>, inPeer: bool, key: string)
    requires inPeer ==> lines == [] || Opens(lines[0])
    ensures Removed(lines, key).1 == Seen(lines, inPeer, key, false)
    decreases |lines|
  {
    if lines == [] {
    } else if !IsPeer(lines[0]) {
      RemovalSees(lines[1..], false, key);
    } else {
      var n := 1 + Block(lines[1..]);
      PeerIsHeader(lines[0]);
      BlockSees(lines[1..], true, key);
      assert lines[..n][1..] == lines[1..][..n - 1] && lines[n..] == lines[1..][n - 1..];
      RemovalSees(lines[n..], false, key);
    }
  }

  /** Of any file: what the search finds. */
  lemma SearchFindsExactly(lines: seq<string>, key: string)
    ensures Present(Peers(lines), key) <==> exists i, j :: Under(lines, i, j, key, true)
  {
    SearchFindsPeers(lines, key);
    SearchSees(lines, false, key);
    SeenExactly(lines, key, true);
  }

  /** Of any file: when the removal finds something to remove. */
  lemma RemovalFindsExactly(lines: seq<string>, key: string)
    ensures Removed(lines, key).1 <==> exists i, j :: Under(lines, i, j, key, false)
  {
    RemovalSees(lines, false, key);
    SeenExactly(lines, key, false);
  }

  /** Search and removal disagree exactly when the key is there, and everywhere it is, a line
      that opens a bracket without closing it stands between the key and its [Peer]. */
  lemma RemovalMissesExactly(lines: seq<string>, key: string)
    ensures (Removed(lines, key).1 <==> Present(Peers(lines), key)) <==>
            !(&& (exists i, j :: Under(lines, i, j, key, true))
              && (forall i, j :: Under(lines, i, j, key, true) ==> exists k :: i < k <= j && Opens(lines[k])))
  {
    SearchFindsExactly(lines, key);
    RemovalFindsExactly(lines, key);
    if i, j :| Under(lines, i, j, key, false) {
      assert Under(lines, i, j, key, true) && !(exists k :: i < k <= j && Opens(lines[k]));
    }
    if i, j :| Under(lines, i, j, key, true) && !(exists k :: i < k <= j && Opens(lines[k])) {
      assert Under(lines, i, j, key, false);
    }
  }

  /** The shortest such files. */
  lemma MalformedHeaderHidesPeer(header: string, open: string, field: string, key: string)
    requires IsPeer(header) && Opens(open) && !IsHeader(open) && !IsPeer(open)
    requires !Opens(field) && !IsPeer(field) && KeyLine(field, key) && !KeyLine(header, key)
    ensures Present(Peers([header, open, field]), key)
    ensures !Removed([header, open, field], key).1
  {
    var lines := [header, open, field];
    PeerIsHeader(header);
    assert lines[1..] == [open, field] && lines[1..][1..] == [field] && [field][1..] == [] && lines[..1] == [header];
    assert HasKey(lines, false, key) by {
      assert HasKey([field], true, key);
      assert HasKey(lines[1..], true, key);
    }
    SearchFindsPeers(lines, key);
    assert !HasKey([header], false, key) by { assert [header][1..] == []; }
    assert !Removed([field], key).1;
    assert !Removed(lines[1..], key).1;
  }

  /** One of them, letter by letter. */
  lemma UnclosedBracketHidesPeer()
    ensures Present(Peers(Lines("[Peer]\n[x\nPublicKey = K")), "K")
    ensures !Removed(Lines("[Peer]\n[x\nPublicKey = K"), "K").1
  {
    WrittenOut();
    HeadingIsPeer();
    OpenLine();
    KeyFieldLine();
    ThreeLines("[Peer]", "[x", "PublicKey = K");
    MalformedHeaderHidesPeer("[Peer]", "[x", "PublicKey = K", "K");
  }

  lemma WrittenOut()
    ensures "[Peer]\n[x\nPublicKey = K" == "[Peer]" + ['\n'] + ("[x" + ['\n'] + "PublicKey = K")
    ensures '\n' !in "[Peer]" && '\n' !in "[x" && '\n' !in "PublicKey = K"
  {
  }

  lemma ThreeLines(a: string, b: string, c: string)
    requires '\n' !in a && '\n' !in b && '\n' !in c
    ensures Lines(a + ['\n'] + (b + ['\n'] + c)) == [a, b, c]
  {
    SplitAt(a, b + ['\n'] + c, '\n');
    SplitAt(b, c, '\n');
    SplitWhole(a, '\n');
    SplitWhole(b, '\n');
    SplitWhole(c, '\n');
  }

  lemma OpenLine()
    ensures Opens("[x") && !IsHeader("[x") && !IsPeer("[x") && !KeyLine("[Peer]", "K")
  {
    assert Trim("[x") == "[x" && |ToLower("[x")| == 2 && |ToLower("[Peer]")| == 6;
    assert "[x"[1..] == "x" && "x"[0] != ']';
    assert Trim("[Peer]") == "[Peer]" && '=' !in "[Peer]";
  }

  lemma KeyFieldLine()
    ensures !Opens("PublicKey = K") && !IsPeer("PublicKey = K") && KeyLine("PublicKey = K", "K")
  {
    assert Field("PublicKey", "K") == "PublicKey = K";
    NameFacts(PublicKey);
    FieldCuts("PublicKey", "K", "K");
    PeerIsHeader("PublicKey = K");
  }

  // ------------------------------------------------------------ the interface

  function ValueOf(line: string, name: string): Option<string> {
    match IndexOf(line, '=')
    case None => None
    case Some(at) => if EqualFold(Trim(line[..at]), name) then Some(Trim(line[at + 1..])) else None
  }

  /** The last value wins. */
  function LastValue(lines: seq<string>, name: string): string {
    if lines == [] then ""
    else match ValueOf(lines[|lines| - 1], name)
      case Some(value) => value
      case None => LastValue(lines[..|lines| - 1], name)
  }

  /** What one more line of the section does to a value. */
  function Updated(value: string, lines: seq<string>, name: string): (r: string)
    requires |lines| <= 1
  {
    if lines == [] then value
    else match ValueOf(lines[0], name)
      case Some(v) => v
      case None => value
  }

  lemma LastGrows(seen: seq<string>, more: seq<string>, name: string)
    requires |more| <= 1
    ensures LastValue(seen + more, name) == Updated(LastValue(seen, name), more, name)
  {
    if more == [] {
      assert seen + more == seen;
    } else {
      assert (seen + more)[..|seen|] == seen;
    }
  }

  /** The line of the section, if this line is one. */
  method SectionLine(raw: string, inside: bool) returns (now: bool, more: seq<string>)
    ensures |more| <= 1
    ensures forall rest: seq<string> :: InterfaceLines([raw] + rest, inside) == more + InterfaceLines(rest, now)
  {
    forall rest: seq<string> ensures ([raw] + rest)[1..] == rest { }
    NormalOfOne(raw);
    now, more := inside, [];
    if IsHeader(raw) {
      now := IsInterface(raw);
    } else if inside {
      more := Normal([raw]);
    }
    forall rest: seq<string> ensures InterfaceLines([raw] + rest, inside) == more + InterfaceLines(rest, now) {
      assert ([raw] + rest)[1..] == rest && [] + InterfaceLines(rest, now) == InterfaceLines(rest, now);
    }
  }

  /** wireGuardInterfaceConfig: it reads the interface lines and nothing else, so what the
      removal and the append leave alone is the address and the port. */
  method InterfaceConfig(config: string) returns (address: string, port: int)
    ensures address == LastValue(InterfaceLines(Lines(config), false), "address")
    ensures port == Atoi(LastValue(InterfaceLines(Lines(config), false), "listenport"))
  {
    var lines, inside := Lines(config), false;
    address, port := "", 0;
    ghost var whole, seen: seq<string>, rest := InterfaceLines(lines, false), [], InterfaceLines(lines, false);
    assert lines[0..] == lines && [] + whole == whole;
    for i := 0 to |lines|
      invariant whole == seen + rest && rest == InterfaceLines(lines[i..], inside)
      invariant address == LastValue(seen, "address") && port == Atoi(LastValue(seen, "listenport"))
    {
      var now, more := SectionLine(lines[i], inside);
      assert lines[i..] == [lines[i]] + lines[i + 1..];
      LastGrows(seen, more, "address");
      LastGrows(seen, more, "listenport");
      address := Updated(address, more, "address");
      if more != [] && ValueOf(more[0], "listenport").Some? {
        port := Atoi(ValueOf(more[0], "listenport").value);
      }
      inside, rest := now, InterfaceLines(lines[i + 1..], now);
      Regroup(seen, more, rest);
      seen := seen + more;
    }
    assert lines[|lines|..] == [] && seen + [] == seen;
  }

  // ------------------------------------------------------------ what was created

  /** The file of a new tunnel. */
  function CreatedLines(address: string, port: nat, key: string): seq<string> {
    ["[Interface]", Field("Address", address), Field("ListenPort", Digits(port)), Field("PrivateKey", key)]
  }

  /** One field line of the section, as the reader takes it. */
  lemma FieldValue(name: string, value: string, asked: string)
    requires Name(name) && value != "" && Trim(value) == value
    ensures Trim(Field(name, value)) != "" && !Opens(Field(name, value))
    ensures ValueOf(Trim(Field(name, value)), asked) == if EqualFold(name, asked) then Some(value) else None
  {
    var rest := FieldTrimmed(name, value);
    FieldCuts(name, value, "");
    TrimRight(name, ' ');
    assert Trim(name) == name;
    assert (" " + value)[1..] == value;
  }

  lemma DigitsTrimmed(n: nat)
    ensures Trim(Digits(n)) == Digits(n) && '\n' !in Digits(n)
  {
    var s := Digits(n);
    assert forall k :: 0 <= k < |s| ==> IsDigit(s[k]);
    assert IsDigit(s[0]) && IsDigit(s[|s| - 1]);
  }

  /** The interface section of lines without another header. */
  lemma {:induction false} SectionBody(lines: seq<string>)
    requires forall k :: 0 <= k < |lines| ==> !IsHeader(lines[k])
    ensures InterfaceLines(lines, true) == Normal(lines)
  {
    if lines != [] {
      SectionBody(lines[1..]);
      NormalOfOne(lines[0]);
      assert forall k :: 0 <= k < |lines[1..]| ==> !IsHeader(lines[1..][k]);
    }
  }

  /** The three names differ, whatever the case of their letters. */
  lemma InterfaceNames()
    ensures Name("Address") && Name("ListenPort") && Name("PrivateKey")
    ensures EqualFold("Address", "address") && !EqualFold("Address", "listenport")
    ensures EqualFold("ListenPort", "listenport") && !EqualFold("ListenPort", "address")
    ensures !EqualFold("PrivateKey", "listenport") && !EqualFold("PrivateKey", "address")
  {
    assert ToLower("Address") == "address" && ToLower("address") == "address";
    assert ToLower("ListenPort") == "listenport" && ToLower("listenport") == "listenport";
    assert ToLower("PrivateKey")[0] == 'p' && ToLower("address")[0] == 'a' && ToLower("listenport")[0] == 'l';
  }

  lemma NormalInFront(a: string, rest: seq<string>)
    requires Trim(a) != ""
    ensures Normal([a] + rest) == [Trim(a)] + Normal(rest)
  {
    NormalSplits([a], rest);
    NormalOfOne(a);
  }

  lemma NormalOfThree(a: string, b: string, c: string)
    requires Trim(a) != "" && Trim(b) != "" && Trim(c) != ""
    ensures Normal([a, b, c] + [""]) == [Trim(a), Trim(b), Trim(c)]
  {
    NormalOfOne("");
    NormalInFront(c, [""]);
    NormalInFront(b, [c] + [""]);
    NormalInFront(a, [b] + ([c] + [""]));
    assert [a, b, c] + [""] == [a] + ([b] + ([c] + [""]));
  }

  lemma SectionOfThree(heading: string, a: string, b: string, c: string)
    requires IsHeader(heading) && IsInterface(heading)
    requires !IsHeader(a) && !IsHeader(b) && !IsHeader(c)
    ensures InterfaceLines([heading, a, b, c] + [""], false) == Normal([a, b, c] + [""])
  {
    var body := [a, b, c] + [""];
    assert !IsHeader("");
    forall k | 0 <= k < |body| ensures !IsHeader(body[k]) {
      assert body[k] == a || body[k] == b || body[k] == c || body[k] == "";
    }
    SectionBody(body);
    assert [heading, a, b, c] + [""] == [heading] + body && ([heading] + body)[1..] == body;
  }

  lemma LastOfThree(a: string, b: string, c: string, name: string)
    ensures LastValue([a, b, c], name) ==
            if ValueOf(c, name).Some? then ValueOf(c, name).value
            else if ValueOf(b, name).Some? then ValueOf(b, name).value
            else if ValueOf(a, name).Some? then ValueOf(a, name).value else ""
  {
    LastGrows([], [a], name);
    LastGrows([a], [b], name);
    LastGrows([a] + [b], [c], name);
    assert [] + [a] == [a] && [a] + [b] + [c] == [a, b, c];
  }

  /** What was written into a new tunnel's file is read back, and still is after whatever leaves
      the interface lines alone. */
  lemma CreatedReadsBack(address: string, port: nat, key: string)
    requires address != "" && Trim(address) == address && '\n' !in address
    requires key != "" && Trim(key) == key && '\n' !in key
    requires port <= MAX_INT
    ensures var lines := InterfaceLines(Lines(Terminated(CreatedLines(address, port, key))), false);
            LastValue(lines, "address") == address && Atoi(LastValue(lines, "listenport")) == port
  {
    var a, b, c := Field("Address", address), Field("ListenPort", Digits(port)), Field("PrivateKey", key);
    DigitsTrimmed(port);
    InterfaceNames();
    LinesOfTerminated(CreatedLines(address, port, key));
    ReadsBack(a, b, c, address, Digits(port), key);
    AtoiOfDigits(port);
  }

  lemma InterfaceHeading()
    ensures IsHeader("[Interface]") && IsInterface("[Interface]")
  {
    var h := "[Interface]";
    assert h[0] == '[' && h[|h| - 1] == ']' && h[|h| - 1..] == "]";
  }

  lemma ReadsBack(a: string, b: string, c: string, address: string, port: string, key: string)
    requires address != "" && Trim(address) == address && port != "" && Trim(port) == port
    requires key != "" && Trim(key) == key
    requires a == Field("Address", address) && b == Field("ListenPort", port) && c == Field("PrivateKey", key)
    ensures var lines := InterfaceLines(["[Interface]", a, b, c] + [""], false);
            LastValue(lines, "address") == address && LastValue(lines, "listenport") == port
  {
    InterfaceNames();
    InterfaceHeading();
    FieldValue("Address", address, "address");
    FieldValue("Address", address, "listenport");
    FieldValue("ListenPort", port, "address");
    FieldValue("ListenPort", port, "listenport");
    FieldValue("PrivateKey", key, "address");
    FieldValue("PrivateKey", key, "listenport");
    SectionOfThree("[Interface]", a, b, c);
    NormalOfThree(a, b, c);
    LastOfThree(Trim(a), Trim(b), Trim(c), "address");
    LastOfThree(Trim(a), Trim(b), Trim(c), "listenport");
  }
}
