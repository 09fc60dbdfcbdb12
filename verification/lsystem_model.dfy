/**
 * The L-system engine: the grammar rewriter (`create_path`) and the turtle interpreter
 * (`lines`), with the builder that assembles the engine's input.
 */
module LSystemModel {
  import opened Colors
  import opened Angles
  import opened Points
  import opened Geometry

  /** The five symbols the turtle understands. */
  const TERMINAL_SYMBOLS: seq<char> := ['F', '+', '-', '[', ']']

  /** What separates a rule's left-hand symbol from its replacement. */
  const RULE_DELIMITER: string := " -> "

  const FRACTAL_STROKE_WIDTH: real := 1.0

  /** `Model`: a built L-system ready to be drawn. */
  datatype Model = Model(
    angle: Angle,
    initialAngle: Angle,
    axiom: string,
    rules: map<char, string>,
    iterations: nat,
    length: real,
    colorScheme: ColorScheme)

  /** `ModelBuilder`: raw parameters; the `with_*` setters are record updates `b.(axiom := …)`. */
  datatype ModelBuilder = ModelBuilder(
    angle: real,
    initialAngle: real,
    axiom: string,
    rules: map<char, string>,
    iterations: nat,
    length: real,
    colorScheme: ColorScheme)

  /** `ModelBuilder::default()`. */
  const DEFAULT_BUILDER: ModelBuilder := ModelBuilder(0.0, 0.0, "", map[], 0, 0.0, Standard)

  /** `ModelBuilder::build`: both angles are normalised, every other field is carried over. */
  function Build(b: ModelBuilder): (m: Model)
    ensures m.angle == FromDegree(b.angle) && m.initialAngle == FromDegree(b.initialAngle)
    ensures 0.0 <= b.angle <= 360.0 ==> m.angle.degree == b.angle
    ensures 0.0 <= b.initialAngle <= 360.0 ==> m.initialAngle.degree == b.initialAngle
    ensures m.axiom == b.axiom && m.rules == b.rules && m.iterations == b.iterations
    ensures m.length == b.length && m.colorScheme == b.colorScheme
  {
    Model(FromDegree(b.angle), FromDegree(b.initialAngle), b.axiom, b.rules, b.iterations, b.length, b.colorScheme)
  }

  // ---------------------------------------------------------------------------
  // Grammar rewriting

  /** What one symbol becomes in a pass: its rule's replacement, or itself. */
  function Expand(rules: map<char, string>, symbol: char): string
  {
    if symbol in rules then rules[symbol] else [symbol]
  }

  /** One rewriting pass, symbol by symbol from the left. */
  function RewritePass(rules: map<char, string>, s: string): string
  {
    if s == [] then [] else RewritePass(rules, s[..|s| - 1]) + Expand(rules, s[|s| - 1])
  }

  /** `n` passes starting from the axiom; pass k+1 consumes the output of pass k. */
  function Generate(rules: map<char, string>, axiom: string, n: nat): string
  {
    if n == 0 then axiom else RewritePass(rules, Generate(rules, axiom, n - 1))
  }

  /** Rewriting one more symbol of `s` appends that symbol's expansion. */
  lemma RewritePassExtend(rules: map<char, string>, s: string, i: nat)
    requires i < |s|
    ensures RewritePass(rules, s[..i + 1]) == RewritePass(rules, s[..i]) + Expand(rules, s[i])
  {
    assert s[..i + 1][..i] == s[..i];
  }

  /** A pass is a string homomorphism. */
  lemma {:induction false} RewritePassAppend(rules: map<char, string>, a: string, b: string)
    ensures RewritePass(rules, a + b) == RewritePass(rules, a) + RewritePass(rules, b)
    decreases |b|
  {
    if b == [] {
      assert a + b == a;
    } else {
      var b' := b[..|b| - 1];
      assert (a + b)[..|a + b| - 1] == a + b';
      assert (a + b)[|a + b| - 1] == b[|b| - 1];
      RewritePassAppend(rules, a, b');
      assert RewritePass(rules, a + b) == RewritePass(rules, a + b') + Expand(rules, b[|b| - 1]);
    }
  }

  /** Every symbol maps to exactly its expansion. */
  lemma RewritePassSymbol(rules: map<char, string>, symbol: char)
    ensures RewritePass(rules, [symbol]) == Expand(rules, symbol)
  {
    assert [symbol][..0] == [];
  }

  /** With no rules, every pass copies its input. */
  lemma {:induction false} RewritePassWithoutRules(s: string)
    ensures RewritePass(map[], s) == s
    decreases |s|
  {
    if s != [] {
      RewritePassWithoutRules(s[..|s| - 1]);
      assert s[..|s| - 1] + [s[|s| - 1]] == s;
    }
  }

  /** With no rules, any number of passes returns the axiom. */
  lemma {:induction false} GenerateWithoutRules(axiom: string, n: nat)
    ensures Generate(map[], axiom, n) == axiom
  {
    if n > 0 {
      GenerateWithoutRules(axiom, n - 1);
      RewritePassWithoutRules(axiom);
    }
  }

  /** `n` copies of one symbol. */
  function Repeat(symbol: char, n: nat): (s: string)
    ensures |s| == n && forall i :: 0 <= i < n ==> s[i] == symbol
  {
    seq(n, _ => symbol)
  }

  function Pow2(k: nat): nat
  {
    if k == 0 then 1 else 2 * Pow2(k - 1)
  }

  /** The doubling rule `F -> FF`. */
  const DOUBLING_RULES: map<char, string> := map['F' := "FF"]

  lemma {:induction false} DoublingPass(n: nat)
    ensures RewritePass(DOUBLING_RULES, Repeat('F', n)) == Repeat('F', 2 * n)
  {
    if n > 0 {
      assert Repeat('F', n)[..n - 1] == Repeat('F', n - 1);
      DoublingPass(n - 1);
      assert Repeat('F', 2 * (n - 1)) + "FF" == Repeat('F', 2 * n);
    }
  }

  /** Axiom `F` under `F -> FF`: k passes give 2^k `F`s. */
  lemma {:induction false} DoublingLaw(k: nat)
    ensures Generate(DOUBLING_RULES, "F", k) == Repeat('F', Pow2(k))
  {
    if k == 0 {
      assert Repeat('F', 1) == "F";
    } else {
      DoublingLaw(k - 1);
      DoublingPass(Pow2(k - 1));
    }
  }

  /** `Model::create_path`: `iterations` passes over the axiom, each into a fresh buffer. */
  method CreatePath(m: Model) returns (path: string)
    ensures path == Generate(m.rules, m.axiom, m.iterations)
  {
    path := m.axiom;
    var buffer: string := "";
    var pass := 0;
    while pass < m.iterations
      invariant 0 <= pass <= m.iterations
      invariant path == Generate(m.rules, m.axiom, pass)
      invariant buffer == ""
    {
      var i := 0;
      while i < |path|
        invariant 0 <= i <= |path|
        invariant buffer == RewritePass(m.rules, path[..i])
      {
        var symbol := path[i];
        RewritePassExtend(m.rules, path, i);
        if symbol in m.rules {
          buffer := buffer + m.rules[symbol];
        } else {
          buffer := buffer + [symbol];
        }
        i := i + 1;
      }
      assert path[..|path|] == path;
      path := buffer;
      buffer := "";
      pass := pass + 1;
    }
  }

  // ---------------------------------------------------------------------------
  // Turtle interpretation

  /**
   * What the engine takes from outside: `f32::cos`, `f32::sin`, and the colour the random
   * scheme draws for the k-th segment.
   */
  datatype Environment = Environment(cos: real -> real, sin: real -> real, randomColor: nat -> Color)

  /** A saved branch point: position and heading. */
  datatype Saved = Saved(x: real, y: real, heading: Angle)

  /** The turtle: position, heading, branch stack, and the segments emitted so far. */
  datatype Turtle = Turtle(x: real, y: real, heading: Angle, stack: seq<Saved>, lines: seq<Line2D>)

  /** The turtle before the first symbol: at (0, 0), facing the initial angle. */
  function Start(m: Model): Turtle
  {
    Turtle(0.0, 0.0, m.initialAngle, [], [])
  }

  /** The segment `F` draws from the turtle's position. */
  function Segment(m: Model, env: Environment, t: Turtle): Line2D
  {
    var x := t.x + m.length * env.cos(t.heading.radian);
    var y := t.y + m.length * env.sin(t.heading.radian);
    Line2D(New(t.x, t.y), New(x, y), Stroke(FRACTAL_STROKE_WIDTH, GetColor(m.colorScheme, env.randomColor(|t.lines|))))
  }

  /** The effect of one path symbol on the turtle. */
  function Step(m: Model, env: Environment, t: Turtle, symbol: char): Turtle
  {
    if symbol !in TERMINAL_SYMBOLS then t
    else if symbol == 'F' then
      var segment := Segment(m, env, t);
      t.(x := segment.end.x, y := segment.end.y, lines := t.lines + [segment])
    else if symbol == '+' then
      t.(heading := FromDegree(t.heading.degree - m.angle.degree))
    else if symbol == '-' then
      t.(heading := FromDegree(t.heading.degree + m.angle.degree))
    else if symbol == '[' then
      t.(stack := t.stack + [Saved(t.x, t.y, t.heading)])
    else if t.stack == [] then
      t
    else
      var top := t.stack[|t.stack| - 1];
      t.(x := top.x, y := top.y, heading := top.heading, stack := t.stack[..|t.stack| - 1])
  }

  /** The turtle after walking `path` from `t`. */
  function Run(m: Model, env: Environment, t: Turtle, path: string): Turtle
  {
    if path == [] then t else Step(m, env, Run(m, env, t, path[..|path| - 1]), path[|path| - 1])
  }

  /** Walking `a + b` is walking `a`, then `b`. */
  lemma {:induction false} RunAppend(m: Model, env: Environment, t: Turtle, a: string, b: string)
    ensures Run(m, env, t, a + b) == Run(m, env, Run(m, env, t, a), b)
    decreases |b|
  {
    if b == [] {
      assert a + b == a;
    } else {
      var b' := b[..|b| - 1];
      assert (a + b)[..|a + b| - 1] == a + b';
      assert (a + b)[|a + b| - 1] == b[|b| - 1];
      RunAppend(m, env, t, a, b');
    }
  }

  /** Walking one more symbol of `path` is one more `Step`. */
  lemma RunExtend(m: Model, env: Environment, t: Turtle, path: string, i: nat)
    requires i < |path|
    ensures Run(m, env, t, path[..i + 1]) == Step(m, env, Run(m, env, t, path[..i]), path[i])
  {
    assert path[..i + 1][..i] == path[..i];
  }

  /** `Model::lines`: the segments the turtle emits while walking the rewritten path. */
  method Lines(m: Model, env: Environment) returns (lines: seq<Line2D>)
    ensures lines == Run(m, env, Start(m), Generate(m.rules, m.axiom, m.iterations)).lines
  {
    lines := [];
    var path := CreatePath(m);
    var currentX, currentY := 0.0, 0.0;
    var currentAngle := m.initialAngle;
    var stack: seq<Saved> := [];
    var i := 0;
    while i < |path|
      invariant 0 <= i <= |path|
      invariant Turtle(currentX, currentY, currentAngle, stack, lines) == Run(m, env, Start(m), path[..i])
    {
      var symbol := path[i];
      ghost var before := Turtle(currentX, currentY, currentAngle, stack, lines);
      RunExtend(m, env, Start(m), path, i);
      if symbol in TERMINAL_SYMBOLS {
        if symbol == 'F' {
          var radians := currentAngle.radian;
          var start := New(currentX, currentY);
          currentX := currentX + m.length * env.cos(radians);
          currentY := currentY + m.length * env.sin(radians);
          var end := New(currentX, currentY);
          var segment := Line2D(start, end, Stroke(FRACTAL_STROKE_WIDTH, GetColor(m.colorScheme, env.randomColor(|lines|))));
          assert segment == Segment(m, env, before);
          lines := lines + [segment];
        } else if symbol == '+' {
          currentAngle := FromDegree(currentAngle.degree - m.angle.degree);
        } else if symbol == '-' {
          currentAngle := FromDegree(currentAngle.degree + m.angle.degree);
        } else if symbol == '[' {
          stack := stack + [Saved(currentX, currentY, currentAngle)];
        } else if stack != [] {
          var top := stack[|stack| - 1];
          stack := stack[..|stack| - 1];
          currentX, currentY, currentAngle := top.x, top.y, top.heading;
        }
      }
      assert Turtle(currentX, currentY, currentAngle, stack, lines) == Step(m, env, before, symbol);
      i := i + 1;
    }
    assert path[..|path|] == path;
  }

  /** Occurrences of `symbol` in `s`. */
  function Count(s: string, symbol: char): nat
  {
    if s == [] then 0 else Count(s[..|s| - 1], symbol) + (if s[|s| - 1] == symbol then 1 else 0)
  }

  /**
   * Exactly one segment per `F`; the segments already emitted are kept, and each new
   * segment is emitted in model space.
   */
  lemma {:induction false} OneSegmentPerF(m: Model, env: Environment, t: Turtle, path: string)
    ensures |Run(m, env, t, path).lines| == |t.lines| + Count(path, 'F')
    ensures Run(m, env, t, path).lines[..|t.lines|] == t.lines
    ensures forall i :: |t.lines| <= i < |Run(m, env, t, path).lines| ==> LineInModelSpace(Run(m, env, t, path).lines[i])
    decreases |path|
  {
    if path != [] {
      OneSegmentPerF(m, env, t, path[..|path| - 1]);
    }
  }

  /** Symbols outside the five terminals change neither position, heading, stack nor output. */
  lemma {:induction false} NonTerminalsAreInert(m: Model, env: Environment, t: Turtle, path: string)
    requires forall i :: 0 <= i < |path| ==> path[i] !in TERMINAL_SYMBOLS
    ensures Run(m, env, t, path) == t
    decreases |path|
  {
    if path != [] {
      NonTerminalsAreInert(m, env, t, path[..|path| - 1]);
    }
  }

  /** `F` draws from the current position to the new one, which becomes the current position. */
  lemma ForwardDrawsFromCurrentPosition(m: Model, env: Environment, t: Turtle)
    ensures var t' := Step(m, env, t, 'F');
      && t'.lines == t.lines + [t'.lines[|t.lines|]]
      && t'.lines[|t.lines|].start == New(t.x, t.y)
      && t'.lines[|t.lines|].end == New(t'.x, t'.y)
      && t'.x == t.x + m.length * env.cos(t.heading.radian)
      && t'.y == t.y + m.length * env.sin(t.heading.radian)
      && t'.heading == t.heading && t'.stack == t.stack
  {
  }

  /** `]` on an empty stack does nothing; otherwise it restores the most recent push. */
  lemma PopRestoresLatestPush(m: Model, env: Environment, t: Turtle)
    ensures t.stack == [] ==> Step(m, env, t, ']') == t
    ensures Step(m, env, Step(m, env, t, '['), ']') == t
  {
    var pushed := Step(m, env, t, '[');
    assert pushed.stack[..|pushed.stack| - 1] == t.stack;
  }

  /** The heading and every saved heading lie in [0, 360]. */
  ghost predicate HeadingsInRange(t: Turtle)
  {
    && 0.0 <= t.heading.degree <= 360.0
    && forall i :: 0 <= i < |t.stack| ==> 0.0 <= t.stack[i].heading.degree <= 360.0
  }

  /** With a turn angle in [0, 360], `+` and `-` keep every heading in [0, 360]. */
  lemma {:induction false} HeadingStaysInRange(m: Model, env: Environment, t: Turtle, path: string)
    requires 0.0 <= m.angle.degree <= 360.0
    requires HeadingsInRange(t)
    ensures HeadingsInRange(Run(m, env, t, path))
    decreases |path|
  {
    if path != [] {
      HeadingStaysInRange(m, env, t, path[..|path| - 1]);
    }
  }

  /**
   * A model built from a turn angle and an initial angle in [0, 360] keeps the turtle's heading
   * in [0, 360] along any path.
   */
  lemma HeadingInRangeForBuiltModel(b: ModelBuilder, env: Environment, path: string)
    requires 0.0 <= b.angle <= 360.0 && 0.0 <= b.initialAngle <= 360.0
    ensures var m := Build(b);
      0.0 <= Run(m, env, Start(m), path).heading.degree <= 360.0
  {
    var m := Build(b);
    HeadingStaysInRange(m, env, Start(m), path);
  }

  /** Symbols that leave the stack alone: everything but the brackets. */
  predicate Unbracketed(w: string)
  {
    forall i :: 0 <= i < |w| ==> w[i] != '[' && w[i] != ']'
  }

  lemma {:induction false} UnbracketedKeepsStack(m: Model, env: Environment, t: Turtle, w: string)
    requires Unbracketed(w)
    ensures Run(m, env, t, w).stack == t.stack
    decreases |w|
  {
    if w != [] {
      UnbracketedKeepsStack(m, env, t, w[..|w| - 1]);
    }
  }

  /**
   * A branch `[w]` over a bracket-free `w` draws what `w` draws and then returns the turtle
   * to where it was, facing the same way, with the same stack.
   */
  lemma BranchReturnsTurtle(m: Model, env: Environment, t: Turtle, w: string)
    requires Unbracketed(w)
    ensures var t' := Run(m, env, t, "[" + w + "]");
      && t'.x == t.x && t'.y == t.y && t'.heading == t.heading && t'.stack == t.stack
      && t'.lines == Run(m, env, t, w).lines
  {
    var pushed := Run(m, env, t, "[");
    assert "["[..0] == [] && "["[0] == '[';
    assert pushed == Step(m, env, Run(m, env, t, []), '[');
    RunAppend(m, env, t, "[", w);
    var inner := Run(m, env, pushed, w);
    UnbracketedKeepsStack(m, env, pushed, w);
    RunAppend(m, env, t, "[" + w, "]");
    assert "]"[..0] == [] && "]"[0] == ']';
    assert inner.stack[..|inner.stack| - 1] == t.stack;
    UnbracketedKeepsStack(m, env, t, w);
    SameLinesFromSamePosition(m, env, pushed, t, w);
  }

  /** A symbol other than a bracket acts alike on turtles that differ only in their stacks. */
  lemma StepIgnoresStack(m: Model, env: Environment, t1: Turtle, t2: Turtle, symbol: char)
    requires symbol != '[' && symbol != ']'
    requires t1.x == t2.x && t1.y == t2.y && t1.heading == t2.heading && t1.lines == t2.lines
    ensures var s1, s2 := Step(m, env, t1, symbol), Step(m, env, t2, symbol);
      s1.x == s2.x && s1.y == s2.y && s1.heading == s2.heading && s1.lines == s2.lines
  {
    if symbol == 'F' {
      assert env.cos(t1.heading.radian) == env.cos(t2.heading.radian);
      assert env.sin(t1.heading.radian) == env.sin(t2.heading.radian);
      assert env.randomColor(|t1.lines|) == env.randomColor(|t2.lines|);
    }
  }

  /** The segments a bracket-free walk draws depend only on position, heading and earlier output. */
  lemma {:induction false} SameLinesFromSamePosition(m: Model, env: Environment, t1: Turtle, t2: Turtle, w: string)
    requires Unbracketed(w)
    requires t1.x == t2.x && t1.y == t2.y && t1.heading == t2.heading && t1.lines == t2.lines
    ensures var r1, r2 := Run(m, env, t1, w), Run(m, env, t2, w);
      r1.x == r2.x && r1.y == r2.y && r1.heading == r2.heading && r1.lines == r2.lines
    decreases |w|
  {
    if w != [] {
      var init := w[..|w| - 1];
      assert Unbracketed(init) by {
        assert forall i :: 0 <= i < |init| ==> init[i] == w[i];
      }
      SameLinesFromSamePosition(m, env, t1, t2, init);
      StepIgnoresStack(m, env, Run(m, env, t1, init), Run(m, env, t2, init), w[|w| - 1]);
    }
  }
}
