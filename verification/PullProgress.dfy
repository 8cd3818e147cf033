/** Progress of a Docker pull: the layer tracker, the bounded tail of the output, and the
    splitting of terminal output into lines. */
module PullProgress {
  import opened Faults

  const MAX_LAYERS := 256
  const MAX_SIZE: int := 0x4_0000_0000_0000             // 2^50
  const GUARD: int := 0x1000_0000_0000_0000             // 2^60

  // ------------------------------------------------------------------ sizes

  datatype Unit = TB | GB | MB | KB | B

  function Factor(u: Unit): real {
    match u
    case TB => 1000000000000.0
    case GB => 1000000000.0
    case MB => 1000000.0
    case KB => 1000.0
    case B => 1.0
  }

  /** Each unit is a thousand of the next. */
  lemma UnitsScale()
    ensures Factor(B) == 1.0 && Factor(KB) == 1000.0 * Factor(B) && Factor(MB) == 1000.0 * Factor(KB)
    ensures Factor(GB) == 1000.0 * Factor(MB) && Factor(TB) == 1000.0 * Factor(GB)
  {
  }

  /** parseDockerByteSize, once the digits and the unit are read: whole bytes, rounded down, and
      nothing for a negative amount or one above the limit. */
  function ParseSize(value: real, u: Unit): (size: Option<int>)
    ensures size.Some? ==> size.value as real <= value * Factor(u) < size.value as real + 1.0
    ensures size.Some? ==> 0 <= size.value <= MAX_SIZE
    ensures size.None? <==> value < 0.0 || value * Factor(u) > MAX_SIZE as real
  {
    var bytes := value * Factor(u);
    if bytes < 0.0 || bytes > MAX_SIZE as real then None else Some(bytes.Floor)
  }

  // ---------------------------------------------------------------- the layers

  datatype Layer = Layer(downloaded: int, total: int)

  type Layers = map<string, Layer>

  /** What a line of the pull says. */
  datatype Line =
    | Noise
    | Downloading(id: string, current: Option<int>, total: Option<int>)     // None: not a size
    | Complete(id: string)                                                  // download or pull complete
    | Other(id: string)

  predicate Sized(l: Line) {
    l.Downloading? ==>
      && (l.current.Some? ==> 0 <= l.current.value <= MAX_SIZE)
      && (l.total.Some? ==> 0 <= l.total.value <= MAX_SIZE)
  }

  predicate Sound(layers: Layers) {
    && |layers| <= MAX_LAYERS
    && forall id :: id in layers ==> 0 <= layers[id].downloaded <= layers[id].total <= MAX_SIZE
  }

  /** Every layer stays, keeps a known total, and only receives more. */
  predicate Advances(a: Layers, b: Layers) {
    forall id :: id in a ==>
      && id in b
      && a[id].downloaded <= b[id].downloaded
      && (a[id].total != 0 ==> b[id].total == a[id].total)
  }

  // ------------------------------------------------------- one layer, over all its lines

  /** The new state of one layer. */
  function Updated(layer: Layer, line: Line): Layer {
    match line
    case Downloading(_, Some(current), Some(total)) =>
      if total > 0 && (layer.total == 0 || layer.total == total) then
        var capped := if current > total then total else current;
        Layer(if capped > layer.downloaded then capped else layer.downloaded, total)
      else layer
    case Complete(_) => if layer.total > 0 then layer.(downloaded := layer.total) else layer
    case _ => layer
  }

  function Fold(start: Layer, lines: seq<Line>): Layer {
    if lines == [] then start else Updated(Fold(start, lines[..|lines| - 1]), lines[|lines| - 1])
  }

  function LinesOf(lines: seq<Line>, id: string): seq<Line> {
    if lines == [] then []
    else
      var last := lines[|lines| - 1];
      LinesOf(lines[..|lines| - 1], id) + if !last.Noise? && last.id == id then [last] else []
  }

  const UNKNOWN := Layer(0, 0)

  /** The line has both sizes. */
  predicate Measures(l: Line) {
    l.Downloading? && l.current.Some? && l.total.Some? && l.total.value > 0
  }

  /** The received bytes that the line speaks of, under that total. */
  predicate Reports(l: Line, total: int, received: int) {
    Measures(l) && l.total.value == total && received == if l.current.value > total then total else l.current.value
  }

  /** The layer is complete: a line says so after one has given its size. */
  ghost predicate Completed(lines: seq<Line>) {
    exists i, j :: 0 <= i < j < |lines| && Measures(lines[i]) && lines[j].Complete?
  }

  /** The first total that the lines give, or none. */
  ghost predicate FirstTotal(lines: seq<Line>, total: int) {
    if total == 0 then forall i :: 0 <= i < |lines| ==> !Measures(lines[i])
    else exists i :: 0 <= i < |lines| && Measures(lines[i]) && lines[i].total.value == total
                     && forall j :: 0 <= j < i ==> !Measures(lines[j])
  }

  /** The largest amount reported under the total, or all of it once the layer is complete. */
  ghost predicate Largest(lines: seq<Line>, total: int, received: int) {
    && (forall i, n :: 0 <= i < |lines| && Reports(lines[i], total, n) ==> n <= received)
    && (if Completed(lines) then received == total
        else received == 0 || exists i :: 0 <= i < |lines| && Reports(lines[i], total, received))
  }

  /** What the tracker knows of a layer after all its lines. */
  ghost predicate Knows(lines: seq<Line>, layer: Layer) {
    FirstTotal(lines, layer.total) && Largest(lines, layer.total, layer.downloaded)
  }

  lemma {:induction false} LayerKnows(lines: seq<Line>)
    requires forall l :: l in lines ==> Sized(l)
    ensures Knows(lines, Fold(UNKNOWN, lines)) && Fold(UNKNOWN, lines).downloaded <= Fold(UNKNOWN, lines).total
    ensures 0 <= Fold(UNKNOWN, lines).downloaded
  {
    if lines != [] {
      var n := |lines| - 1;
      LayerKnows(lines[..n]);
      OneLineMore(lines[..n], lines[n], Fold(UNKNOWN, lines[..n]));
      assert lines[..n] + [lines[n]] == lines;
    }
  }

  lemma OneLineMore(lines: seq<Line>, line: Line, layer: Layer)
    requires Knows(lines, layer) && Sized(line) && 0 <= layer.downloaded <= layer.total
    ensures Knows(lines + [line], Updated(layer, line))
    ensures 0 <= Updated(layer, line).downloaded <= Updated(layer, line).total
  {
    FirstStays(lines, line, layer);
    LargestGrows(lines, line, layer);
  }

  lemma FirstStays(lines: seq<Line>, line: Line, layer: Layer)
    requires FirstTotal(lines, layer.total)
    ensures FirstTotal(lines + [line], Updated(layer, line).total)
  {
    var all := lines + [line];
    assert forall i :: 0 <= i < |lines| ==> all[i] == lines[i];
    if layer.total == 0 {
      assert all[|lines|] == line;
    }
  }

  lemma CompletedBy(lines: seq<Line>, line: Line)
    ensures Completed(lines + [line]) <==>
            Completed(lines) || (line.Complete? && exists i :: 0 <= i < |lines| && Measures(lines[i]))
  {
    var all := lines + [line];
    assert all[|lines|] == line && forall i :: 0 <= i < |lines| ==> all[i] == lines[i];
    if Completed(all) {
      var i, j :| 0 <= i < j < |all| && Measures(all[i]) && all[j].Complete?;
      assert Measures(lines[i]);
    }
  }

  lemma LargestGrows(lines: seq<Line>, line: Line, layer: Layer)
    requires Knows(lines, layer) && Sized(line) && 0 <= layer.downloaded <= layer.total
    ensures Largest(lines + [line], Updated(layer, line).total, Updated(layer, line).downloaded)
    ensures 0 <= Updated(layer, line).downloaded <= Updated(layer, line).total
  {
    var all, next := lines + [line], Updated(layer, line);
    assert all[|lines|] == line && forall i :: 0 <= i < |lines| ==> all[i] == lines[i];
    CompletedBy(lines, line);
    if !Completed(all) && next.downloaded != 0 {
      if next.downloaded == layer.downloaded && layer.total == next.total {
        var i :| 0 <= i < |lines| && Reports(lines[i], layer.total, layer.downloaded);
        assert Reports(all[i], next.total, next.downloaded);
      } else {
        assert Reports(all[|lines|], next.total, next.downloaded);
      }
    }
  }

  /** What one line does to all the layers: it is folded into its own, unless that would be one too many. */
  ghost predicate Took(a: Layers, b: Layers, line: Line) {
    if line.Noise? || (line.id !in a && |a| >= MAX_LAYERS) then b == a
    else b == a[line.id := Updated(if line.id in a then a[line.id] else UNKNOWN, line)]
  }

  /** Every layer that is followed is the fold of all its lines; a layer that is not has had none,
      or there were too many. */
  ghost predicate Follows(layers: Layers, lines: seq<Line>) {
    forall id :: if id in layers then layers[id] == Fold(UNKNOWN, LinesOf(lines, id))
                 else LinesOf(lines, id) == [] || |layers| >= MAX_LAYERS
  }

  lemma FollowsOn(a: Layers, b: Layers, lines: seq<Line>, line: Line)
    requires Follows(a, lines) && Took(a, b, line)
    ensures Follows(b, lines + [line])
  {
    var all := lines + [line];
    assert all[..|all| - 1] == lines;
    forall id
      ensures if id in b then b[id] == Fold(UNKNOWN, LinesOf(all, id)) else LinesOf(all, id) == [] || |b| >= MAX_LAYERS
    {
      var own := LinesOf(lines, id);
      if !line.Noise? && line.id == id {
        assert (own + [line])[..|own + [line]| - 1] == own;
      } else {
        assert own + [] == own;
      }
    }
  }

  lemma {:induction false} LinesOfAreLines(lines: seq<Line>, id: string)
    ensures forall l :: l in LinesOf(lines, id) ==> l in lines && !l.Noise? && l.id == id
  {
    if lines != [] {
      LinesOfAreLines(lines[..|lines| - 1], id);
    }
  }

  lemma FollowedKnow(layers: Layers, lines: seq<Line>)
    requires Follows(layers, lines) && forall l :: l in lines ==> Sized(l)
    ensures forall id :: id in layers ==> Knows(LinesOf(lines, id), layers[id])
  {
    forall id | id in layers ensures Knows(LinesOf(lines, id), layers[id]) {
      LinesOfAreLines(lines, id);
      LayerKnows(LinesOf(lines, id));
    }
  }

  /** Sums over a set of layers, in whatever order they come. */
  ghost function Known(layers: Layers, ids: set<string>): (sum: int)
    requires ids <= layers.Keys
  {
    if ids == {} then 0
    else
      var id :| id in ids;
      layers[id].total + Known(layers, ids - {id})
  }

  ghost function Received(layers: Layers, ids: set<string>): (sum: int)
    requires ids <= layers.Keys
  {
    if ids == {} then 0
    else
      var id :| id in ids;
      layers[id].downloaded + Received(layers, ids - {id})
  }

  /** The order does not matter. */
  lemma {:induction false} SumsInAnyOrder(layers: Layers, ids: set<string>, id: string)
    requires ids <= layers.Keys && id in ids
    ensures Known(layers, ids) == layers[id].total + Known(layers, ids - {id})
    ensures Received(layers, ids) == layers[id].downloaded + Received(layers, ids - {id})
  {
    SumInAnyOrder(layers, ids, id);
    ReceivedInAnyOrder(layers, ids, id);
  }

  lemma {:induction false} SumInAnyOrder(layers: Layers, ids: set<string>, id: string)
    requires ids <= layers.Keys && id in ids
    ensures Known(layers, ids) == layers[id].total + Known(layers, ids - {id})
  {
    var first :| first in ids && Known(layers, ids) == layers[first].total + Known(layers, ids - {first});
    if first != id {
      SumInAnyOrder(layers, ids - {first}, id);
      SumInAnyOrder(layers, ids - {id}, first);
      assert ids - {first} - {id} == ids - {id} - {first};
    }
  }

  lemma {:induction false} ReceivedInAnyOrder(layers: Layers, ids: set<string>, id: string)
    requires ids <= layers.Keys && id in ids
    ensures Received(layers, ids) == layers[id].downloaded + Received(layers, ids - {id})
  {
    var first :| first in ids && Received(layers, ids) == layers[first].downloaded + Received(layers, ids - {first});
    if first != id {
      ReceivedInAnyOrder(layers, ids - {first}, id);
      ReceivedInAnyOrder(layers, ids - {id}, first);
      assert ids - {first} - {id} == ids - {id} - {first};
    }
  }

  /** received <= known <= 2^50 for each layer counted, so never more than 2^58 in all. */
  lemma {:induction false} SumsAreBounded(layers: Layers, ids: set<string>)
    requires Sound(layers) && ids <= layers.Keys
    ensures 0 <= Received(layers, ids) <= Known(layers, ids) <= |ids| * MAX_SIZE
  {
    if ids != {} {
      var id :| id in ids;
      SumsInAnyOrder(layers, ids, id);
      SumsAreBounded(layers, ids - {id});
    }
  }

  lemma {:induction false} SumsGrow(a: Layers, b: Layers, ids: set<string>, more: set<string>)
    requires Sound(a) && Sound(b) && Advances(a, b) && ids <= a.Keys && ids <= more <= b.Keys
    ensures Known(a, ids) <= Known(b, more) && Received(a, ids) <= Received(b, more)
    decreases more
  {
    if more != {} {
      var id :| id in more;
      SumsInAnyOrder(b, more, id);
      if id in ids {
        SumsInAnyOrder(a, ids, id);
        SumsGrow(a, b, ids - {id}, more - {id});
      } else {
        SumsGrow(a, b, ids, more - {id});
      }
    }
  }

  class PullTracker {
    var layers: Layers

    constructor ()
      ensures layers == map[]
    {
      layers := map[];
    }

    /** dockerPullTracker.report: the sums to show, or nothing to add to the line. The overflow
        guard is never taken: `guarded` stays false. */
    method Report(line: Line) returns (sums: Option<(int, int)>, guarded: bool)
      requires Sound(layers) && Sized(line)
      modifies this
      ensures Sound(layers) && Advances(old(layers), layers) && !guarded
      ensures line.Noise? || (line.id !in old(layers) && |old(layers)| >= MAX_LAYERS) ==>
        layers == old(layers) && sums.None?
      ensures !line.Noise? && (line.id in old(layers) || |old(layers)| < MAX_LAYERS) ==>
        && (var before := if line.id in old(layers) then old(layers)[line.id] else Layer(0, 0);
            layers == old(layers)[line.id := Updated(before, line)])
        && var known := Known(layers, layers.Keys);
           sums == if known == 0 then None else Some((Received(layers, layers.Keys), known))
      ensures sums.Some? ==> 0 <= sums.value.0 <= sums.value.1 <= MAX_LAYERS * MAX_SIZE
    {
      sums, guarded := None, false;
      if line.Noise? { return; }
      var layer := if line.id in layers then layers[line.id] else Layer(0, 0);
      if line.id !in layers && |layers| >= MAX_LAYERS { return; }
      layers := layers[line.id := Updated(layer, line)];
      sums, guarded := Total();
    }

    /** The sum over all layers, guarded against overflow. */
    method Total() returns (sums: Option<(int, int)>, guarded: bool)
      requires Sound(layers)
      ensures !guarded
      ensures var known := Known(layers, layers.Keys);
              sums == if known == 0 then None else Some((Received(layers, layers.Keys), known))
      ensures sums.Some? ==> 0 <= sums.value.0 <= sums.value.1 <= MAX_LAYERS * MAX_SIZE
    {
      sums, guarded := None, false;
      var todo, known, received := layers.Keys, 0, 0;
      SumsAreBounded(layers, layers.Keys);
      assert |layers.Keys| == |layers|;
      while todo != {}
        invariant todo <= layers.Keys && !guarded && 0 <= known <= MAX_LAYERS * MAX_SIZE
        invariant known + Known(layers, todo) == Known(layers, layers.Keys)
        invariant received + Received(layers, todo) == Received(layers, layers.Keys)
        decreases |todo|
      {
        var id :| id in todo;
        SumsInAnyOrder(layers, todo, id);
        SumsAreBounded(layers, todo - {id});
        todo := todo - {id};
        if layers[id].total != 0 {
          if known > GUARD - layers[id].total { return None, true; }
          known := known + layers[id].total;
          received := received + layers[id].downloaded;
        }
      }
      sums := if known == 0 then None else Some((received, known));
    }

    /** Over any sequence of lines: the shown sums never decrease, and every layer followed knows
        what all its lines have said. */
    method ReportAll(lines: seq<Line>) returns (shown: seq<(int, int)>)
      requires Sound(layers) && forall l :: l in lines ==> Sized(l)
      modifies this
      ensures Sound(layers)
      ensures old(layers) == map[] ==> forall id :: id in layers ==> Knows(LinesOf(lines, id), layers[id])
      ensures old(layers) == map[] ==> forall id :: id !in layers && LinesOf(lines, id) != [] ==> |layers| >= MAX_LAYERS
      ensures forall i, j :: 0 <= i <= j < |shown| ==> shown[i].0 <= shown[j].0 && shown[i].1 <= shown[j].1
      ensures forall i :: 0 <= i < |shown| ==> 0 <= shown[i].0 <= shown[i].1 <= MAX_LAYERS * MAX_SIZE
    {
      ghost var anew := layers == map[];
      shown := Follow(lines, anew);
      if anew { FollowedKnow(layers, lines); }
    }

    /** The loop over the lines. */
    method Follow(lines: seq<Line>, ghost anew: bool) returns (shown: seq<(int, int)>)
      requires Sound(layers) && (forall l :: l in lines ==> Sized(l)) && (anew ==> layers == map[])
      modifies this
      ensures Tracks(shown, lines, anew)
    {
      shown := [];
      for n := 0 to |lines|
        invariant Tracks(shown, lines[..n], anew)
      {
        assert lines[..n + 1] == lines[..n] + [lines[n]];
        shown := ReportOne(lines[n], shown, lines[..n], anew);
      }
      assert lines[..|lines|] == lines;
    }

    /** Where a sequence of lines has led: `anew`, it began with an empty tracker. */
    ghost predicate Tracks(shown: seq<(int, int)>, lines: seq<Line>, anew: bool)
      reads this
    {
      && Sound(layers) && Monotone(shown, Received(layers, layers.Keys), Known(layers, layers.Keys))
      && (anew ==> Follows(layers, lines))
    }

    method ReportOne(line: Line, shown: seq<(int, int)>, ghost lines: seq<Line>, ghost anew: bool)
      returns (shown': seq<(int, int)>)
      requires Tracks(shown, lines, anew) && Sized(line)
      modifies this
      ensures Tracks(shown', lines + [line], anew)
    {
      ghost var a := layers;
      ghost var received, known := Received(layers, layers.Keys), Known(layers, layers.Keys);
      ghost var received', known';
      var sums;
      sums, received', known' := Observe(line, received, known);
      MonotoneGrows(shown, (received, known), (received', known'));
      if anew {
        FollowsOn(a, layers, lines, line);
      }
      shown' := if sums.Some? then shown + [sums.value] else shown;
    }

    /** One line, seen through the sums. */
    method Observe(line: Line, ghost received: int, ghost known: int)
      returns (sums: Option<(int, int)>, ghost received': int, ghost known': int)
      requires Sound(layers) && Sized(line)
      requires received == Received(layers, layers.Keys) && known == Known(layers, layers.Keys)
      modifies this
      ensures Sound(layers) && Advances(old(layers), layers) && Took(old(layers), layers, line)
      ensures received' == Received(layers, layers.Keys) && known' == Known(layers, layers.Keys)
      ensures received <= received' && known <= known'
      ensures sums.Some? ==> sums.value == (received', known') && 0 <= received' <= known' <= MAX_LAYERS * MAX_SIZE
    {
      ghost var before := layers;
      var guarded;
      sums, guarded := Report(line);
      SumsGrow(before, layers, before.Keys, layers.Keys);
      received', known' := Received(layers, layers.Keys), Known(layers, layers.Keys);
    }
  }

  /** Sums that never decrease, up to where they are now. */
  predicate Monotone(shown: seq<(int, int)>, received: int, known: int) {
    && (forall i, j :: 0 <= i <= j < |shown| ==> shown[i].0 <= shown[j].0 && shown[i].1 <= shown[j].1)
    && (forall i :: 0 <= i < |shown| ==> 0 <= shown[i].0 <= shown[i].1 <= MAX_LAYERS * MAX_SIZE)
    && (forall i :: 0 <= i < |shown| ==> shown[i].0 <= received && shown[i].1 <= known)
  }

  lemma MonotoneGrows(shown: seq<(int, int)>, a: (int, int), b: (int, int))
    requires Monotone(shown, a.0, a.1) && a.0 <= b.0 && a.1 <= b.1
    ensures Monotone(shown, b.0, b.1)
    ensures 0 <= b.0 <= b.1 <= MAX_LAYERS * MAX_SIZE ==> Monotone(shown + [b], b.0, b.1)
  {
  }

  // ------------------------------------------------------------ the bounded tail

  const CAPACITY := 4096

  function Last(s: string, n: nat): string {
    if |s| <= n then s else s[|s| - n..]
  }

  /** Keeping the last n of a text only needs the last n of what came before. */
  lemma LastOfLast(a: string, b: string, n: nat)
    ensures Last(Last(a, n) + Last(b, n), n) == Last(a + b, n)
  {
  }

  /** Dropping just enough in front leaves the last characters. */
  lemma DropFront(had: string, tail: string, drop: nat)
    requires drop <= |had| && |tail| <= CAPACITY
    requires drop == if |had| + |tail| > CAPACITY then |had| + |tail| - CAPACITY else 0
    ensures had[drop..] + tail == Last(had + tail, CAPACITY)
  {
  }

  class BoundedOutput {
    var buffer: array<char>
    var len: nat
    ghost var written: string          // everything ever written

    ghost predicate Valid()
      reads this, buffer
    {
      buffer.Length == CAPACITY && len <= CAPACITY && buffer[..len] == Last(written, CAPACITY)
    }

    constructor ()
      ensures Valid() && fresh(buffer) && written == ""
    {
      buffer, len, written := new char[CAPACITY], 0, "";
    }

    /** Write: the buffer holds the last CAPACITY characters of everything written. */
    method Write(p: string) returns (n: nat)
      requires Valid()
      modifies this`len, this`written, buffer
      ensures Valid() && n == |p| && written == old(written) + p
    {
      n := |p|;
      var tail := if |p| > CAPACITY then p[|p| - CAPACITY..] else p;
      LastOfLast(written, p, CAPACITY);
      AppendTail(tail);
      written := written + p;
    }

    method AppendTail(tail: string)
      requires buffer.Length == CAPACITY && len <= CAPACITY && |tail| <= CAPACITY
      modifies this`len, buffer
      ensures len <= CAPACITY && buffer[..len] == Last(old(buffer[..len]) + tail, CAPACITY)
    {
      ghost var had := buffer[..len];
      var remaining := CAPACITY - len;
      DropFront(had, tail, if remaining < |tail| then |tail| - remaining else 0);
      if remaining < |tail| {
        Shift(|tail| - remaining);
        assert buffer[..len] == had[|tail| - remaining..];
      } else {
        assert had[0..] == had;
      }
      Append(tail);
    }

    /** The oldest characters go; the rest moves to the front, in place. */
    method Shift(drop: nat)
      requires buffer.Length == CAPACITY && drop <= len <= CAPACITY
      modifies this`len, buffer
      ensures len == old(len) - drop && buffer[..len] == old(buffer[drop..len])
    {
      var k := 0;
      while k < len - drop
        invariant 0 <= k <= len - drop && len == old(len)
        invariant forall j :: 0 <= j < k ==> buffer[j] == old(buffer[drop + j])
        invariant forall j :: k <= j < len ==> buffer[j] == old(buffer[j])
      {
        buffer[k] := buffer[drop + k];
        k := k + 1;
      }
      len := len - drop;
    }

    method Append(p: string)
      requires buffer.Length == CAPACITY && len + |p| <= CAPACITY
      modifies this`len, buffer
      ensures len == old(len) + |p| && buffer[..len] == old(buffer[..len]) + p
    {
      var k := 0;
      while k < |p|
        invariant 0 <= k <= |p| && len == old(len)
        invariant forall j :: 0 <= j < len ==> buffer[j] == old(buffer[j])
        invariant forall j :: 0 <= j < k ==> buffer[len + j] == p[j]
      {
        buffer[len + k] := p[k];
        k := k + 1;
      }
      len := len + |p|;
    }
  }

  // -------------------------------------------------------------- splitting lines

  predicate IsBreak(c: char) {
    c == '\n' || c == '\r'
  }

  predicate OneLine(s: string) {
    forall k :: 0 <= k < |s| ==> !IsBreak(s[k])
  }

  /** splitDockerPullLines: the next line and how much it consumes; nothing if more is needed. */
  method Split(data: string, atEof: bool) returns (advance: nat, token: Option<string>)
    ensures token.Some? ==> OneLine(token.value) && token.value <= data
    ensures token.Some? ==>
      || (advance == |token.value| + 1 && advance <= |data| && IsBreak(data[|token.value|]))
      || (atEof && advance == |data| > 0 && token.value == data)
    ensures token.None? <==> OneLine(data) && (!atEof || data == "")
    ensures token.None? ==> advance == 0
  {
    for i := 0 to |data|
      invariant OneLine(data[..i])
    {
      if IsBreak(data[i]) { return i + 1, Some(data[..i]); }
    }
    assert data[..|data|] == data;
    if atEof && |data| > 0 { return |data|, Some(data); }
    return 0, None;
  }

  /** The lines with the breaks that ended them, put together again. */
  function Woven(lines: seq<string>, breaks: string): string
    requires |breaks| <= |lines|
  {
    if lines == [] then ""
    else
      var n := |lines| - 1;
      if |breaks| > n then Woven(lines[..n], breaks[..n]) + lines[n] + breaks[n..]
      else Woven(lines[..n], breaks) + lines[n]
  }

  lemma WovenGrows(lines: seq<string>, breaks: string, line: string, end: string)
    requires |breaks| == |lines| && |end| <= 1
    ensures Woven(lines + [line], breaks + end) == Woven(lines, breaks) + line + end
  {
    assert (lines + [line])[..|lines|] == lines;
    if end == "" {
      assert breaks + end == breaks;
    } else {
      assert (breaks + end)[..|lines|] == breaks && (breaks + end)[|lines|..] == end;
    }
  }

  /** Scanning the whole output loses nothing: the lines and their breaks are the output. */
  method ScanAll(data: string) returns (lines: seq<string>, ghost breaks: string)
    ensures forall k :: 0 <= k < |lines| ==> OneLine(lines[k])
    ensures forall k :: 0 <= k < |breaks| ==> IsBreak(breaks[k])
    ensures |lines| - 1 <= |breaks| <= |lines| && Woven(lines, breaks) == data
  {
    lines, breaks := [], "";
    var at := 0;
    while at < |data|
      invariant at <= |data| && (forall k :: 0 <= k < |lines| ==> OneLine(lines[k]))
      invariant forall k :: 0 <= k < |breaks| ==> IsBreak(breaks[k])
      invariant |lines| - 1 <= |breaks| <= |lines| && (at < |data| ==> |breaks| == |lines|)
      invariant Woven(lines, breaks) == data[..at]
    {
      var rest := data[at..];
      var advance, token := Split(rest, true);
      ghost var end := rest[|token.value|..advance];
      WovenGrows(lines, breaks, token.value, end);
      assert rest[..advance] == token.value + end;
      assert data[..at + advance] == data[..at] + rest[..advance];
      assert data[..at] + token.value + end == data[..at] + (token.value + end);
      lines, breaks, at := lines + [token.value], breaks + end, at + advance;
    }
    assert data[..|data|] == data;
  }
}
