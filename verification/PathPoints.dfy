/** The path cursor: commands over a bounded canvas become the vertices of an outline. */
module PathPoints {
  import opened Basics
  import opened Raster

  datatype Command =
    | Move(x: real, y: real)
    | Line(x: real, y: real)
    | Horizontal(x: real)
    | Vertical(y: real)
    | Cubic(x1: real, y1: real, x2: real, y2: real, x: real, y: real)
    | Close

  const CANVAS := 64.0
  const SEGMENTS := 32
  const MAX_TOKENS := 512

  predicate InRange(v: real) { 0.0 <= v <= CANVAS }

  predicate OnCanvas(p: Point) { InRange(p.x) && InRange(p.y) }

  predicate ValuesOk(c: Command) {
    match c
    case Move(x, y) => InRange(x) && InRange(y)
    case Line(x, y) => InRange(x) && InRange(y)
    case Horizontal(x) => InRange(x)
    case Vertical(y) => InRange(y)
    case Cubic(x1, y1, x2, y2, x, y) =>
      InRange(x1) && InRange(y1) && InRange(x2) && InRange(y2) && InRange(x) && InRange(y)
    case Close => true
  }

  /** A path as it is written: command letters and numbers. */
  datatype Token = Letter(letter: char) | Number(value: real)

  function Spelled(c: Command): (tokens: seq<Token>)
    ensures |tokens| > 0
  {
    match c
    case Move(x, y) => [Letter('M'), Number(x), Number(y)]
    case Line(x, y) => [Letter('L'), Number(x), Number(y)]
    case Horizontal(x) => [Letter('H'), Number(x)]
    case Vertical(y) => [Letter('V'), Number(y)]
    case Cubic(x1, y1, x2, y2, x, y) =>
      [Letter('C'), Number(x1), Number(y1), Number(x2), Number(y2), Number(x), Number(y)]
    case Close => [Letter('Z')]
  }

  function Spell(commands: seq<Command>): seq<Token> {
    if commands == [] then [] else Spelled(commands[0]) + Spell(commands[1..])
  }

  /** How many numbers a command letter takes. */
  function Arity(letter: char): Option<nat> {
    match letter
    case 'M' => Some(2)
    case 'L' => Some(2)
    case 'H' => Some(1)
    case 'V' => Some(1)
    case 'C' => Some(6)
    case 'Z' => Some(0)
    case _ => None
  }

  /** The command at the front, its letter with all its numbers; None for a number, a stray letter or a truncation. */
  function FirstCommand(tokens: seq<Token>): (r: Option<Command>)
    ensures r.Some? ==> |tokens| >= |Spelled(r.value)| && tokens[..|Spelled(r.value)|] == Spelled(r.value)
  {
    if tokens == [] || tokens[0].Number? then None
    else
      var count := Arity(tokens[0].letter);
      if count.None? || |tokens| <= count.value || exists k | 1 <= k <= count.value :: tokens[k].Letter? then None
      else
        match tokens[0].letter
        case 'M' => Some(Move(tokens[1].value, tokens[2].value))
        case 'L' => Some(Line(tokens[1].value, tokens[2].value))
        case 'H' => Some(Horizontal(tokens[1].value))
        case 'V' => Some(Vertical(tokens[1].value))
        case 'C' =>
          Some(Cubic(tokens[1].value, tokens[2].value, tokens[3].value, tokens[4].value, tokens[5].value,
                     tokens[6].value))
        case 'Z' => Some(Close)
  }

  /** The commands a token sequence spells, if it spells any. */
  function Commands(tokens: seq<Token>): Option<seq<Command>> {
    if tokens == [] then Some([])
    else
      match FirstCommand(tokens)
      case None => None
      case Some(c) =>
        match Commands(tokens[|Spelled(c)|..])
        case None => None
        case Some(rest) => Some([c] + rest)
  }

  lemma FirstOfSpelled(c: Command, rest: seq<Token>)
    ensures FirstCommand(Spelled(c) + rest) == Some(c)
  {
  }

  /** Spelling and reading are inverse: every command list is read back, and nothing else is read from its tokens. */
  lemma {:induction false} SpellRoundTrip(commands: seq<Command>)
    ensures Commands(Spell(commands)) == Some(commands)
  {
    hide Spelled, FirstCommand;
    if commands != [] {
      var first, rest := Spelled(commands[0]), Spell(commands[1..]);
      FirstOfSpelled(commands[0], rest);
      assert Spell(commands) == first + rest && (first + rest)[|first|..] == rest;
      SpellRoundTrip(commands[1..]);
      assert [commands[0]] + commands[1..] == commands;
    }
  }

  lemma {:induction false} CommandsAreSpelled(tokens: seq<Token>)
    requires Commands(tokens).Some?
    ensures Spell(Commands(tokens).value) == tokens
  {
    hide Spelled, FirstCommand;
    if tokens != [] {
      var n := |Spelled(FirstCommand(tokens).value)|;
      CommandsAreSpelled(tokens[n..]);
      assert tokens == tokens[..n] + tokens[n..];
    }
  }

  /** One bounded path that starts with its only move and closes only at its end. */
  predicate PathOk(commands: seq<Command>) {
    && commands != [] && commands[0].Move? && |Spell(commands)| <= MAX_TOKENS
    && forall i | 0 <= i < |commands| :: Allowed(commands, i)
  }

  predicate Allowed(commands: seq<Command>, i: nat)
    requires i < |commands|
  {
    ValuesOk(commands[i]) && (commands[i].Move? ==> i == 0) && (commands[i].Close? ==> i == |commands| - 1)
  }

  function Blend(u: real, t: real, p: real, a: real, b: real, c: real): real {
    u * u * u * p + 3.0 * u * u * t * a + 3.0 * u * t * t * b + t * t * t * c
  }

  function CubicPoint(from: Point, c: Command, step: nat): Point
    requires c.Cubic? && step <= SEGMENTS
  {
    var t := step as real / 32.0;
    Point(Blend(1.0 - t, t, from.x, c.x1, c.x2, c.x), Blend(1.0 - t, t, from.y, c.y1, c.y2, c.y))
  }

  lemma Scale(w: real, v: real)
    requires w >= 0.0 && InRange(v)
    ensures 0.0 <= w * v <= 64.0 * w
  {
    NonNegative(w, v);
    NonNegative(w, 64.0 - v);
  }

  lemma NonNegative(a: real, b: real)
    requires a >= 0.0 && b >= 0.0
    ensures a * b >= 0.0
  {
  }

  /** A cubic stays on the canvas of its control points: its weights are non-negative and sum to one. */
  lemma BlendInRange(t: real, p: real, a: real, b: real, c: real)
    requires 0.0 <= t <= 1.0 && InRange(p) && InRange(a) && InRange(b) && InRange(c)
    ensures InRange(Blend(1.0 - t, t, p, a, b, c))
  {
    var u := 1.0 - t;
    var uu, tt := u * u, t * t;
    NonNegative(u, u);
    NonNegative(t, t);
    var w0, w1, w2, w3 := uu * u, 3.0 * uu * t, 3.0 * u * tt, tt * t;
    NonNegative(uu, u);
    NonNegative(3.0 * uu, t);
    NonNegative(3.0 * u, tt);
    NonNegative(tt, t);
    Weights(t);
    Blended(u, t, p, a, b, c);
    Mix(w0, w1, w2, w3, p, a, b, c);
  }

  lemma Mix(w0: real, w1: real, w2: real, w3: real, p: real, a: real, b: real, c: real)
    requires w0 >= 0.0 && w1 >= 0.0 && w2 >= 0.0 && w3 >= 0.0
    requires InRange(p) && InRange(a) && InRange(b) && InRange(c)
    ensures 0.0 <= w0 * p + w1 * a + w2 * b + w3 * c <= 64.0 * (w0 + w1 + w2 + w3)
  {
    MixTwo(w0, w1, p, a);
    MixTwo(w2, w3, b, c);
  }

  lemma MixTwo(w: real, x: real, p: real, a: real)
    requires w >= 0.0 && x >= 0.0 && InRange(p) && InRange(a)
    ensures 0.0 <= w * p + x * a <= 64.0 * (w + x)
  {
    Scale(w, p);
    Scale(x, a);
    Sum(w * p, x * a, w, x);
  }

  lemma Sum(m: real, n: real, w: real, x: real)
    requires 0.0 <= m <= 64.0 * w && 0.0 <= n <= 64.0 * x
    ensures 0.0 <= m + n <= 64.0 * (w + x)
  {
  }

  lemma Weights(t: real)
    ensures
      var u := 1.0 - t;
      u * u * u + 3.0 * (u * u) * t + 3.0 * u * (t * t) + t * t * t == 1.0
  {
  }

  lemma Blended(u: real, t: real, p: real, a: real, b: real, c: real)
    ensures Blend(u, t, p, a, b, c)
         == (u * u) * u * p + (3.0 * (u * u) * t) * a + (3.0 * u * (t * t)) * b + ((t * t) * t) * c
  {
  }

  /** A cubic ends exactly on its last control point. */
  lemma CubicEnds(from: Point, c: Command)
    requires c.Cubic?
    ensures CubicPoint(from, c, SEGMENTS) == Point(c.x, c.y)
  {
  }

  /** Where a command leaves the cursor. */
  function Cursor(at: Point, c: Command): Point {
    match c
    case Move(x, y) => Point(x, y)
    case Line(x, y) => Point(x, y)
    case Horizontal(x) => Point(x, at.y)
    case Vertical(y) => Point(at.x, y)
    case Cubic(_, _, _, _, x, y) => Point(x, y)
    case Close => at
  }

  /** The vertices a command adds behind the cursor; closing returns to the first one. */
  function Added(at: Point, first: Point, c: Command): (points: seq<Point>)
    ensures |points| > 0
  {
    if c.Cubic? then seq(SEGMENTS, i requires 0 <= i < SEGMENTS => CubicPoint(at, c, i + 1))
    else if c.Close? then [first]
    else [Cursor(at, c)]
  }

  function CursorAfter(commands: seq<Command>): Point {
    if commands == [] then Point(0.0, 0.0)
    else Cursor(CursorAfter(commands[..|commands| - 1]), commands[|commands| - 1])
  }

  function FirstOf(points: seq<Point>): Point { if points == [] then Point(0.0, 0.0) else points[0] }

  function Trace(commands: seq<Command>): (points: seq<Point>)
    ensures |points| >= |commands|
  {
    if commands == [] then []
    else
      var front := commands[..|commands| - 1];
      var points := Trace(front);
      points + Added(CursorAfter(front), FirstOf(points), commands[|commands| - 1])
  }

  predicate AllOnCanvas(points: seq<Point>) { forall i | 0 <= i < |points| :: OnCanvas(points[i]) }

  lemma AddedOnCanvas(at: Point, first: Point, c: Command)
    requires OnCanvas(at) && OnCanvas(first) && ValuesOk(c)
    ensures AllOnCanvas(Added(at, first, c)) && OnCanvas(Cursor(at, c))
    ensures
      var points := Added(at, first, c);
      points[|points| - 1] == if c.Close? then first else Cursor(at, c)
  {
    hide Blend;
    if c.Cubic? {
      forall i | 0 <= i < SEGMENTS ensures OnCanvas(Added(at, first, c)[i]) {
        var t := (i + 1) as real / 32.0;
        BlendInRange(t, at.x, c.x1, c.x2, c.x);
        BlendInRange(t, at.y, c.y1, c.y2, c.y);
      }
      CubicEnds(at, c);
    }
  }

  /** No vertex leaves the canvas; the outline ends at the cursor, or where it started when it closes. */
  lemma {:induction false} TraceOnCanvas(commands: seq<Command>)
    requires forall i | 0 <= i < |commands| :: Allowed(commands, i)
    ensures AllOnCanvas(Trace(commands)) && OnCanvas(CursorAfter(commands))
    ensures commands != [] ==>
              var points, last := Trace(commands), commands[|commands| - 1];
              points[|points| - 1] == if last.Close? && |commands| > 1 then points[0] else CursorAfter(commands)
  {
    if commands != [] {
      var front, last := commands[..|commands| - 1], commands[|commands| - 1];
      forall i | 0 <= i < |front| ensures Allowed(front, i) { assert Allowed(commands, i); }
      TraceOnCanvas(front);
      assert Allowed(commands, |front|);
      var points := Trace(front);
      AddedOnCanvas(CursorAfter(front), FirstOf(points), last);
    }
  }

  method AddCubic(points0: seq<Point>, at: Point, c: Command) returns (points: seq<Point>)
    requires c.Cubic?
    ensures points == points0 + Added(at, at, c)
  {
    hide Blend;
    points := points0;
    for step := 1 to SEGMENTS + 1
      invariant points == points0 + Added(at, at, c)[..step - 1]
    {
      points := points + [CubicPoint(at, c, step)];
    }
  }

  /** A letter `M` in the tokens of a path with one leading move stands at the front only. */
  lemma {:induction false} MovesAreSpelled(commands: seq<Command>, k: nat)
    requires k < |Spell(commands)| && Spell(commands)[k] == Letter('M')
    ensures exists i | 0 <= i < |commands| :: commands[i].Move? && (k > 0 ==> i > 0)
  {
    var n := |Spelled(commands[0])|;
    if k < n {
      assert k == 0 && commands[0].Move?;
    } else {
      MovesAreSpelled(commands[1..], k - n);
      var i :| 0 <= i < |commands| - 1 && commands[1..][i].Move?;
      assert commands[i + 1].Move?;
    }
  }

  /** What the parser accepts and gives: the trace of the commands its tokens spell. */
  function Parsed(tokens: seq<Token>): Option<seq<Point>> {
    var commands := Commands(tokens);
    if commands.Some? && PathOk(commands.value) then Some(Trace(commands.value)) else None
  }

  lemma MoveIsAlone(tokens: seq<Token>, k: nat)
    requires 0 < k < |tokens| && tokens[k] == Letter('M')
    ensures Parsed(tokens) == None
  {
    if Commands(tokens).Some? {
      var commands := Commands(tokens).value;
      CommandsAreSpelled(tokens);
      MovesAreSpelled(commands, k);
      var i :| 0 < i < |commands| && commands[i].Move?;
      assert !Allowed(commands, i);
    }
  }

  /** The commands read so far, and that reading goes on behind them. */
  ghost predicate ReadSoFar(tokens: seq<Token>, i: nat, commands: seq<Command>)
    requires i <= |tokens|
  {
    && (Commands(tokens).Some? <==> Commands(tokens[i..]).Some?)
    && (Commands(tokens).Some? ==> Commands(tokens).value == commands + Commands(tokens[i..]).value)
    && AllSettled(commands, i == |tokens|)
    && (i == 0 <==> commands == [])
  }

  ghost predicate AllSettled(commands: seq<Command>, atEnd: bool) {
    forall k | 0 <= k < |commands| :: Settled(commands, k, atEnd)
  }

  predicate Settled(commands: seq<Command>, k: nat, atEnd: bool)
    requires k < |commands|
  {
    ValuesOk(commands[k]) && (commands[k].Move? ==> k == 0) && (commands[k].Close? ==> atEnd && k == |commands| - 1)
  }

  lemma SpelledFirst(c: Command)
    ensures (Spelled(c)[0] == Letter('M') <==> c.Move?) && (c.Close? ==> |Spelled(c)| == 1)
  {
  }

  lemma SettledNext(commands: seq<Command>, c: Command, atEnd: bool)
    requires AllSettled(commands, false) && ValuesOk(c) && (c.Move? ==> commands == []) && (c.Close? ==> atEnd)
    ensures AllSettled(commands + [c], atEnd)
  {
    hide ValuesOk;
    forall k | 0 <= k < |commands| + 1 ensures Settled(commands + [c], k, atEnd) {
      if k < |commands| {
        assert Settled(commands, k, false);
      }
    }
  }

  lemma ReadsOn(tokens: seq<Token>, i: nat, commands: seq<Command>, c: Command)
    requires i < |tokens| && ReadSoFar(tokens, i, commands) && FirstCommand(tokens[i..]) == Some(c)
    requires tokens[0] == Letter('M') && forall k | 0 < k < |tokens| :: tokens[k] != Letter('M')
    requires ValuesOk(c) && (c.Close? ==> i + 1 == |tokens|)
    ensures i + |Spelled(c)| <= |tokens| && ReadSoFar(tokens, i + |Spelled(c)|, commands + [c])
    ensures c.Close? ==> commands != []
  {
    hide ValuesOk, Spelled, FirstCommand, AllSettled;
    var n := |Spelled(c)|;
    assert tokens[i..][n..] == tokens[i + n..];
    assert tokens[i] == tokens[i..][0] == Spelled(c)[0];
    SpelledFirst(c);
    assert c.Move? ==> i == 0;
    SettledNext(commands, c, i + n == |tokens|);
  }

  lemma ReadsBadly(tokens: seq<Token>, i: nat, commands: seq<Command>)
    requires i < |tokens| && ReadSoFar(tokens, i, commands)
    requires var c := FirstCommand(tokens[i..]);
             c.None? || !ValuesOk(c.value) || (c.value.Close? && i + 1 != |tokens|)
    ensures Parsed(tokens) == None
  {
    hide ValuesOk, Spelled, FirstCommand;
    if Commands(tokens).Some? {
      var all, c := Commands(tokens).value, FirstCommand(tokens[i..]).value;
      var rest := tokens[i..][|Spelled(c)|..];
      assert all == commands + ([c] + Commands(rest).value);
      SpelledFirst(c);
      assert rest != [] ==> Commands(rest).value != [];
      assert all[|commands|] == c;
      assert !Allowed(all, |commands|);
    }
  }

  lemma ReadsAll(tokens: seq<Token>, commands: seq<Command>)
    requires tokens != [] && tokens[0] == Letter('M') && |tokens| <= MAX_TOKENS
    requires ReadSoFar(tokens, |tokens|, commands)
    ensures Parsed(tokens) == Some(Trace(commands)) && commands != []
    ensures forall k | 0 <= k < |commands| :: Allowed(commands, k)
  {
    hide ValuesOk;
    assert commands + [] == commands;
    CommandsAreSpelled(tokens);
    forall k | 0 <= k < |commands| ensures Allowed(commands, k) {
      assert Settled(commands, k, true);
    }
  }

  lemma TraceStarts()
    ensures Trace([]) == [] && CursorAfter([]) == Point(0.0, 0.0)
  {
  }

  lemma TraceOn(commands: seq<Command>, c: Command)
    ensures Trace(commands + [c]) == Trace(commands) + Added(CursorAfter(commands), FirstOf(Trace(commands)), c)
    ensures CursorAfter(commands + [c]) == Cursor(CursorAfter(commands), c)
  {
    hide Added, Cursor;
    assert (commands + [c])[..|commands|] == commands;
  }

  /** The branches of the parser's loop on a command. */
  method AddCommand(points0: seq<Point>, at: Point, c: Command) returns (points: seq<Point>)
    requires c.Close? ==> points0 != []
    ensures points == points0 + Added(at, FirstOf(points0), c)
  {
    hide Blend;
    if c.Cubic? {
      points := AddCubic(points0, at, c);
    } else if c.Close? {
      points := points0 + [points0[0]];
    } else {
      points := points0 + [Cursor(at, c)];
    }
  }

  /** The parser's loop: tokens that spell a path within the bounds give its trace, anything else is refused. */
  method Points(tokens: seq<Token>) returns (r: Option<seq<Point>>)
    ensures r == Parsed(tokens)
    ensures r.Some? ==> r.value != [] && AllOnCanvas(r.value)
  {
    hide Blend, ValuesOk, Added, FirstCommand, Parsed, Spelled, Trace, Cursor, CursorAfter, Commands, PathOk;
    if tokens == [] || tokens[0] != Letter('M') || |tokens| > MAX_TOKENS {
      NotAPath(tokens);
      return None;
    }
    if k: nat :| 0 < k < |tokens| && tokens[k] == Letter('M') {
      MoveIsAlone(tokens, k);
      return None;
    }
    var points: seq<Point> := [];
    var at := Point(0.0, 0.0);
    var i := 0;
    ghost var commands: seq<Command> := [];
    TraceStarts();
    while i < |tokens|
      invariant i <= |tokens| && ReadSoFar(tokens, i, commands)
      invariant points == Trace(commands) && at == CursorAfter(commands)
    {
      var next := FirstCommand(tokens[i..]);
      if next.None? || !ValuesOk(next.value) || (next.value.Close? && i + 1 != |tokens|) {
        ReadsBadly(tokens, i, commands);
        return None;
      }
      var c := next.value;
      ReadsOn(tokens, i, commands, c);
      TraceOn(commands, c);
      points := AddCommand(points, at, c);
      at := Cursor(at, c);
      commands := commands + [c];
      i := i + |Spelled(c)|;
    }
    ReadsAll(tokens, commands);
    TraceOnCanvas(commands);
    return Some(points);
  }

  lemma NotAPath(tokens: seq<Token>)
    requires tokens == [] || tokens[0] != Letter('M') || |tokens| > MAX_TOKENS
    ensures Parsed(tokens) == None
  {
    if Commands(tokens).Some? {
      CommandsAreSpelled(tokens);
    }
  }
}
