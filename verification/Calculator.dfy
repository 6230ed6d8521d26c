/** The recursive-descent calculator of internal/agenttools/calculator.go, over real numbers, against the
    grammar it accepts. */
module Calculator {
  import opened Common

  // ---------------------------------------------------------------- expressions and their spellings

  datatype Expr = Literal(digits: string) | Sign(sign: char, arg: Expr) | Binary(op: char, left: Expr, right: Expr)

  /** A spelling of an expression: where its spaces and parentheses are. */
  datatype Node =
    | Num(space: string, digits: string)
    | Signed(space: string, sign: char, arg: Node)
    | Group(space: string, inner: Node, close: string)
    | Infix(op: char, left: Node, gap: string, right: Node)

  datatype Level = Sum | Product | Factor

  predicate IsDigit(c: char) { '0' <= c <= '9' }

  function Dots(s: string): nat {
    if s == "" then 0 else (if s[0] == '.' then 1 else 0) + Dots(s[1..])
  }

  /** Digits with at most one point, and at least one digit. */
  predicate IsLiteral(s: string) {
    && (forall i | 0 <= i < |s| :: IsDigit(s[i]) || s[i] == '.')
    && Dots(s) <= 1
    && exists i | 0 <= i < |s| :: IsDigit(s[i])
  }

  /** Sums of products of factors; operators of one level associate to the left, signs bind tightest. */
  predicate WellFormed(n: Node, level: Level) {
    match n
    case Num(space, digits) => AllSpace(space) && IsLiteral(digits)
    case Signed(space, sign, arg) => AllSpace(space) && (sign == '+' || sign == '-') && WellFormed(arg, Factor)
    case Group(space, inner, close) => AllSpace(space) && WellFormed(inner, Sum) && AllSpace(close)
    case Infix(op, left, gap, right) =>
      && AllSpace(gap)
      && (if op == '+' || op == '-' then level == Sum && WellFormed(left, Sum) && WellFormed(right, Product)
          else (op == '*' || op == '/') && level != Factor && WellFormed(left, Product) && WellFormed(right, Factor))
  }

  function Print(n: Node): string {
    match n
    case Num(space, digits) => space + digits
    case Signed(space, sign, arg) => space + ([sign] + Print(arg))
    case Group(space, inner, close) => space + ("(" + (Print(inner) + (close + ")")))
    case Infix(op, left, gap, right) => Print(left) + (gap + ([op] + Print(right)))
  }

  /** The expression a spelling spells. */
  function Strip(n: Node): Expr {
    match n
    case Num(_, digits) => Literal(digits)
    case Signed(_, sign, arg) => Sign(sign, Strip(arg))
    case Group(_, inner, _) => Strip(inner)
    case Infix(op, left, _, right) => Binary(op, Strip(left), Strip(right))
  }

  function Pow10(n: nat): (p: nat)
    ensures p > 0
  {
    if n == 0 then 1 else 10 * Pow10(n - 1)
  }

  function Digits(s: string): int {
    if s == "" then 0 else Digits(s[..|s| - 1]) * 10 + (s[|s| - 1] as int - '0' as int)
  }

  function PointAt(s: string): nat {
    if s == "" || s[0] == '.' then 0 else 1 + PointAt(s[1..])
  }

  lemma {:induction false} PointInside(s: string)
    ensures PointAt(s) <= |s|
  {
    if s != "" && s[0] != '.' { PointInside(s[1..]); }
  }

  /** What digits are worth after a point. */
  function Fraction(s: string): real { Digits(s) as real / Pow10(|s|) as real }

  function LiteralValue(s: string): real {
    PointInside(s);
    var i := PointAt(s);
    if i == |s| then Digits(s) as real
    else Digits(s[..i]) as real + Fraction(s[i + 1..])
  }

  /** Named so that equal factors are seen to have equal products. */
  function Times(a: real, b: real): real { a * b }

  function Operate(op: char, left: Option<real>, right: Option<real>): Option<real> {
    match (left, right)
    case (Some(a), Some(b)) =>
      if op == '+' then Some(a + b)
      else if op == '-' then Some(a - b)
      else if op == '*' then Some(Times(a, b))
      else if b == 0.0 then None
      else Some(a / b)
    case _ => None
  }

  /** No value means a division by zero somewhere inside. */
  function Value(e: Expr): Option<real> {
    match e
    case Literal(digits) => Some(LiteralValue(digits))
    case Sign(sign, arg) => (match Value(arg) case Some(v) => Some(if sign == '-' then -v else v) case None => None)
    case Binary(op, left, right) => Operate(op, Value(left), Value(right))
  }

  predicate ValidExpr(e: Expr) {
    match e
    case Literal(digits) => IsLiteral(digits)
    case Sign(sign, arg) => (sign == '+' || sign == '-') && ValidExpr(arg)
    case Binary(op, left, right) =>
      (op == '+' || op == '-' || op == '*' || op == '/') && ValidExpr(left) && ValidExpr(right)
  }

  /** The spelling with a pair of parentheses around everything. */
  function Bracketed(e: Expr): Node {
    match e
    case Literal(digits) => Num("", digits)
    case Sign(sign, arg) => Signed("", sign, Bracketed(arg))
    case Binary(op, left, right) => Group("", Infix(op, Bracketed(left), "", Bracketed(right)), "")
  }

  lemma {:induction false} AnyLevel(n: Node, level: Level)
    requires WellFormed(n, Factor)
    ensures WellFormed(n, level)
  {
  }

  /** Every expression has a spelling, at every level of the grammar. */
  lemma {:induction false} EveryExprIsSpelled(e: Expr, level: Level)
    requires ValidExpr(e)
    ensures WellFormed(Bracketed(e), level) && Strip(Bracketed(e)) == e
  {
    match e
    case Literal(_) =>
    case Sign(_, arg) => EveryExprIsSpelled(arg, Factor);
    case Binary(op, left, right) =>
      EveryExprIsSpelled(left, if op == '+' || op == '-' then Sum else Product);
      EveryExprIsSpelled(right, if op == '+' || op == '-' then Product else Factor);
  }

  // ---------------------------------------------------------------- the parser as a function of the remaining input

  datatype Parse = Parsed(value: real, rest: string) | Failed

  function SkipSpace(s: string): (rest: string)
    ensures |rest| <= |s|
  {
    if s != "" && IsSpace(s[0]) then SkipSpace(s[1..]) else s
  }

  /** How far the number scanner runs: digits, and one point. */
  function Scan(s: string, point: bool): (n: nat)
    ensures n <= |s|
  {
    if s == "" then 0
    else if s[0] == '.' then (if point then 0 else 1 + Scan(s[1..], true))
    else if IsDigit(s[0]) then 1 + Scan(s[1..], point)
    else 0
  }

  /** The library's reading of a scanned literal. */
  function ParseFloat(s: string): Option<real> {
    if IsLiteral(s) then Some(LiteralValue(s)) else None
  }

  function ParseNumber(s: string): (p: Parse)
    ensures p.Parsed? ==> |p.rest| < |s|
  {
    var t := SkipSpace(s);
    var n := Scan(t, false);
    if n == 0 then Failed
    else
      match ParseFloat(t[..n])
      case Some(v) => Parsed(v, t[n..])
      case None => Failed
  }

  function ParseFactor(s: string): (p: Parse)
    ensures p.Parsed? ==> |p.rest| < |s|
    decreases |s|, 0
  {
    var t := SkipSpace(s);
    if t != "" && t[0] == '+' then ParseFactor(t[1..])
    else if t != "" && t[0] == '-' then
      (match ParseFactor(t[1..])
       case Parsed(v, rest) => Parsed(-v, rest)
       case Failed => Failed)
    else if t != "" && t[0] == '(' then
      (match ParseSum(t[1..])
       case Parsed(v, rest) =>
         var close := SkipSpace(rest);
         if close != "" && close[0] == ')' then Parsed(v, close[1..]) else Failed
       case Failed => Failed)
    else ParseNumber(t)
  }

  function ParseProduct(s: string): (p: Parse)
    ensures p.Parsed? ==> |p.rest| < |s|
    decreases |s|, 2
  {
    match ParseFactor(s)
    case Parsed(v, rest) => ProductLoop(v, rest)
    case Failed => Failed
  }

  function ProductLoop(left: real, s: string): (p: Parse)
    ensures p.Parsed? ==> |p.rest| <= |s|
    decreases |s|, 1
  {
    var t := SkipSpace(s);
    if t == "" || (t[0] != '*' && t[0] != '/') then Parsed(left, t)
    else
      match ParseFactor(t[1..])
      case Parsed(right, rest) =>
        if t[0] == '*' then ProductLoop(Times(left, right), rest)
        else if right == 0.0 then Failed
        else ProductLoop(left / right, rest)
      case Failed => Failed
  }

  function ParseSum(s: string): (p: Parse)
    ensures p.Parsed? ==> |p.rest| < |s|
    decreases |s|, 4
  {
    match ParseProduct(s)
    case Parsed(v, rest) => SumLoop(v, rest)
    case Failed => Failed
  }

  function SumLoop(left: real, s: string): (p: Parse)
    ensures p.Parsed? ==> |p.rest| <= |s|
    decreases |s|, 3
  {
    var t := SkipSpace(s);
    if t == "" || (t[0] != '+' && t[0] != '-') then Parsed(left, t)
    else
      match ParseProduct(t[1..])
      case Parsed(right, rest) => SumLoop(if t[0] == '+' then left + right else left - right, rest)
      case Failed => Failed
  }

  function Calculated(s: string): Option<real> {
    match ParseSum(s)
    case Parsed(v, rest) => if SkipSpace(rest) == "" then Some(v) else None
    case Failed => None
  }

  // ---------------------------------------------------------------- spelled expressions parse to their value

  lemma {:induction false} SkipsSpace(space: string, s: string)
    requires AllSpace(space)
    ensures SkipSpace(space + s) == SkipSpace(s)
  {
    if space == "" {
      assert space + s == s;
    } else {
      assert (space + s)[1..] == space[1..] + s;
      SkipsSpace(space[1..], s);
    }
  }

  lemma {:induction false} SkipTwice(s: string)
    ensures SkipSpace(SkipSpace(s)) == SkipSpace(s)
  {
    if s != "" && IsSpace(s[0]) { SkipTwice(s[1..]); }
  }

  /** What may follow a number without being read as part of it. */
  predicate NumberEnds(s: string) { s == "" || (!IsDigit(s[0]) && s[0] != '.') }

  /** What may follow a product without continuing it. */
  predicate ProductEnds(s: string) {
    var t := SkipSpace(s);
    t == "" || (t[0] != '*' && t[0] != '/')
  }

  lemma {:induction false} ScansLiteral(digits: string, rest: string, point: bool)
    requires forall i | 0 <= i < |digits| :: IsDigit(digits[i]) || digits[i] == '.'
    requires Dots(digits) + (if point then 1 else 0) <= 1
    requires NumberEnds(rest)
    ensures Scan(digits + rest, point) == |digits|
  {
    if digits == "" {
      assert digits + rest == rest;
    } else {
      assert (digits + rest)[1..] == digits[1..] + rest;
      ScansLiteral(digits[1..], rest, point || digits[0] == '.');
    }
  }

  lemma {:induction false} GapEnds(gap: string, op: char, rest: string)
    requires AllSpace(gap) && !IsDigit(op) && op != '.' && !IsSpace(op)
    ensures NumberEnds(gap + ([op] + rest))
    ensures SkipSpace(gap + ([op] + rest)) == [op] + rest
  {
    SkipsSpace(gap, [op] + rest);
  }

  /** What a sign makes of what follows it. */
  function Negated(sign: char, p: Parse): Parse {
    if sign == '-' && p.Parsed? then Parsed(-p.value, p.rest) else p
  }

  /** What a closing parenthesis makes of what precedes it. */
  function Closed(p: Parse): Parse {
    if p.Failed? then Failed
    else
      var t := SkipSpace(p.rest);
      if t != "" && t[0] == ')' then Parsed(p.value, t[1..]) else Failed
  }

  lemma {:induction false} NumberFactor(space: string, digits: string, rest: string)
    requires AllSpace(space) && IsLiteral(digits) && NumberEnds(rest)
    ensures ParseFactor(space + (digits + rest)) == Parsed(LiteralValue(digits), rest)
  {
    hide ParseSum, LiteralValue;
    SkipsSpace(space, digits + rest);
    ScansLiteral(digits, rest, false);
    assert digits != "" && (digits + rest)[0] == digits[0];
    assert SkipSpace(digits + rest) == digits + rest;
    assert (digits + rest)[..|digits|] == digits && (digits + rest)[|digits|..] == rest;
  }

  lemma {:induction false} SignFactor(space: string, sign: char, s: string)
    requires AllSpace(space) && (sign == '+' || sign == '-')
    ensures ParseFactor(space + ([sign] + s)) == Negated(sign, ParseFactor(s))
  {
    hide ParseSum, ParseNumber;
    SkipsSpace(space, [sign] + s);
    assert ([sign] + s)[1..] == s;
  }

  lemma {:induction false} GroupFactor(space: string, s: string)
    requires AllSpace(space)
    ensures ParseFactor(space + ("(" + s)) == Closed(ParseSum(s))
  {
    hide ParseSum, ParseNumber;
    SkipsSpace(space, "(" + s);
    assert ("(" + s)[1..] == s;
  }

  /** One operator and its right operand, after a left value. */
  function Advance(op: char, left: real, right: Parse): Parse {
    match right
    case Failed => Failed
    case Parsed(w, rest) => match Operate(op, Some(left), Some(w)) case Some(x) => Parsed(x, rest) case None => Failed
  }

  /** One turn of the loop, from the text its blanks are skipped to. */
  lemma {:induction false} ProductTurn(v: real, s: string)
    ensures var t := SkipSpace(s);
      if t == "" || (t[0] != '*' && t[0] != '/') then ProductLoop(v, s) == Parsed(v, t)
      else ProductLoop(v, s) ==
           match Advance(t[0], v, ParseFactor(t[1..]))
           case Parsed(x, rest) => ProductLoop(x, rest)
           case Failed => Failed
  {
    hide ParseFactor, SkipSpace;
    var t := SkipSpace(s);
    if t != "" && (t[0] == '*' || t[0] == '/') && ParseFactor(t[1..]).Parsed? {
      var p := ParseFactor(t[1..]);
      assert Advance(t[0], v, p).Parsed? ==> Advance(t[0], v, p).rest == p.rest;
    }
  }

  /** One turn of the loop, from the text its blanks are skipped to. */
  lemma {:induction false} SumTurn(v: real, s: string)
    ensures var t := SkipSpace(s);
      if t == "" || (t[0] != '+' && t[0] != '-') then SumLoop(v, s) == Parsed(v, t)
      else SumLoop(v, s) ==
           match Advance(t[0], v, ParseProduct(t[1..]))
           case Parsed(x, rest) => SumLoop(x, rest)
           case Failed => Failed
  {
    hide ParseProduct, SkipSpace;
    var t := SkipSpace(s);
    if t != "" && (t[0] == '+' || t[0] == '-') && ParseProduct(t[1..]).Parsed? {
      var p := ParseProduct(t[1..]);
      assert Advance(t[0], v, p).Parsed? ==> Advance(t[0], v, p).rest == p.rest;
    }
  }

  lemma {:induction false} ProductStep(v: real, gap: string, op: char, s: string)
    requires AllSpace(gap) && (op == '*' || op == '/')
    ensures ProductLoop(v, gap + ([op] + s)) ==
      match Advance(op, v, ParseFactor(s)) case Parsed(x, rest) => ProductLoop(x, rest) case Failed => Failed
  {
    hide ParseFactor, ProductLoop;
    SkipsSpace(gap, [op] + s);
    assert ([op] + s)[1..] == s;
    ProductTurn(v, gap + ([op] + s));
  }

  lemma {:induction false} SumStep(v: real, gap: string, op: char, s: string)
    requires AllSpace(gap) && (op == '+' || op == '-')
    ensures SumLoop(v, gap + ([op] + s)) ==
      match Advance(op, v, ParseProduct(s)) case Parsed(x, rest) => SumLoop(x, rest) case Failed => Failed
  {
    hide ParseProduct, SumLoop;
    SkipsSpace(gap, [op] + s);
    assert ([op] + s)[1..] == s;
    SumTurn(v, gap + ([op] + s));
  }

  lemma {:induction false} ProductStops(v: real, s: string)
    requires ProductEnds(s)
    ensures ProductLoop(v, s) == Parsed(v, SkipSpace(s))
  {
  }

  lemma {:induction false} SumLoopSkips(v: real, s: string)
    ensures SumLoop(v, SkipSpace(s)) == SumLoop(v, s)
  {
    hide ParseProduct;
    SkipTwice(s);
  }

  /** What parsing the spelling of a value leaves for its caller. */
  function After(v: Option<real>, rest: string): Parse {
    match v case Some(x) => Parsed(x, rest) case None => Failed
  }

  lemma {:induction false} ClosedAfter(v: Option<real>, close: string, rest: string)
    requires AllSpace(close)
    ensures match v case None => true
            case Some(x) => Closed(SumLoop(x, close + (")" + rest))) == Parsed(x, rest)
  {
    GapEnds(close, ')', rest);
    SkipTwice(close + (")" + rest));
    assert (")" + rest)[1..] == rest;
    hide ParseProduct;
  }

  lemma {:induction false} FactorParses(n: Node, rest: string)
    requires WellFormed(n, Factor) && NumberEnds(rest)
    ensures ParseFactor(Print(n) + rest) == After(Value(Strip(n)), rest)
    decreases n, 0
  {
    hide ParseFactor, ParseSum, SumLoop, IsLiteral, LiteralValue, SkipSpace, ProductEnds, NumberEnds, AllSpace, Closed;
    match n
    case Num(space, digits) =>
      assert Print(n) + rest == space + (digits + rest);
      NumberFactor(space, digits, rest);
    case Signed(space, sign, arg) =>
      assert Print(n) + rest == space + ([sign] + (Print(arg) + rest));
      SignFactor(space, sign, Print(arg) + rest);
      FactorParses(arg, rest);
    case Group(space, inner, close) =>
      var after := close + (")" + rest);
      assert Print(n) + rest == space + ("(" + (Print(inner) + after));
      GroupFactor(space, Print(inner) + after);
      GroupParses(inner, close, rest);
  }

  lemma {:induction false} GroupParses(inner: Node, close: string, rest: string)
    requires WellFormed(inner, Sum) && AllSpace(close)
    ensures Closed(ParseSum(Print(inner) + (close + (")" + rest)))) == After(Value(Strip(inner)), rest)
    decreases inner, 3
  {
    hide ParseSum, SumLoop, SkipSpace, WellFormed, Print, Strip, Value;
    GapEnds(close, ')', rest);
    SumParses(inner, close + (")" + rest));
    ClosedAfter(Value(Strip(inner)), close, rest);
  }

  lemma {:induction false} ProductParses(n: Node, rest: string)
    requires WellFormed(n, Product) && NumberEnds(rest)
    ensures ParseProduct(Print(n) + rest) ==
      match Value(Strip(n)) case Some(v) => ProductLoop(v, rest) case None => Failed
    decreases n, 1
  {
    hide ParseFactor, ParseProduct, ProductLoop, IsLiteral, LiteralValue, SkipSpace, NumberEnds, AllSpace, Operate;
    if n.Infix? {
      var after := n.gap + ([n.op] + (Print(n.right) + rest));
      assert Print(n) + rest == Print(n.left) + after;
      GapEnds(n.gap, n.op, Print(n.right) + rest);
      ProductParses(n.left, after);
      FactorParses(n.right, rest);
      ProductLoopParses(n.op, Value(Strip(n.left)), Value(Strip(n.right)), n.gap, Print(n.right) + rest, rest);
    } else {
      AnyLevelBack(n);
      FactorParses(n, rest);
      ProductOfFactor(Print(n) + rest);
    }
  }

  lemma AnyLevelBack(n: Node)
    requires WellFormed(n, Product) && !n.Infix?
    ensures WellFormed(n, Factor)
  {
  }

  lemma ProductOfFactor(s: string)
    ensures ParseProduct(s) == match ParseFactor(s) case Parsed(v, rest) => ProductLoop(v, rest) case Failed => Failed
  {
    hide ParseFactor, ProductLoop;
  }

  lemma {:induction false} ProductLoopParses(op: char, a: Option<real>, b: Option<real>, gap: string, s: string,
      rest: string)
    requires AllSpace(gap) && (op == '*' || op == '/') && ParseFactor(s) == After(b, rest)
    ensures (match a case Some(v) => ProductLoop(v, gap + ([op] + s)) case None => Failed) ==
      match Operate(op, a, b) case Some(v) => ProductLoop(v, rest) case None => Failed
  {
    hide ParseFactor, ProductLoop;
    if a.Some? { ProductStep(a.value, gap, op, s); }
  }

  lemma {:induction false} SumParses(n: Node, rest: string)
    requires WellFormed(n, Sum) && NumberEnds(rest) && ProductEnds(rest)
    ensures ParseSum(Print(n) + rest) == match Value(Strip(n)) case Some(v) => SumLoop(v, rest) case None => Failed
    decreases n, 2
  {
    hide ParseFactor, ParseProduct, ParseSum, SumLoop, ProductLoop, IsLiteral, LiteralValue, SkipSpace;
    hide NumberEnds, AllSpace, Operate, ProductEnds;
    if n.Infix? && (n.op == '+' || n.op == '-') {
      var after := n.gap + ([n.op] + (Print(n.right) + rest));
      assert Print(n) + rest == Print(n.left) + after;
      GapEnds(n.gap, n.op, Print(n.right) + rest);
      SumOpEndsProduct(n.gap, n.op, Print(n.right) + rest);
      SumParses(n.left, after);
      ProductParses(n.right, rest);
      SumLoopParses(n.op, Value(Strip(n.left)), Value(Strip(n.right)), n.gap, Print(n.right) + rest, rest);
    } else {
      ProductParses(n, rest);
      SumOfProduct(Value(Strip(n)), Print(n) + rest, rest);
    }
  }

  lemma SumOpEndsProduct(gap: string, op: char, s: string)
    requires AllSpace(gap) && (op == '+' || op == '-')
    ensures ProductEnds(gap + ([op] + s))
  {
    GapEnds(gap, op, s);
  }

  lemma SumOfProduct(a: Option<real>, s: string, rest: string)
    requires ProductEnds(rest)
    requires ParseProduct(s) == match a case Some(v) => ProductLoop(v, rest) case None => Failed
    ensures ParseSum(s) == match a case Some(v) => SumLoop(v, rest) case None => Failed
  {
    if a.Some? {
      ProductStops(a.value, rest);
      SumLoopSkips(a.value, rest);
    }
    hide ParseProduct, ProductLoop, SumLoop;
  }

  lemma {:induction false} SumLoopParses(op: char, a: Option<real>, b: Option<real>, gap: string, s: string,
      rest: string)
    requires AllSpace(gap) && (op == '+' || op == '-') && ProductEnds(rest)
    requires ParseProduct(s) == match b case Some(v) => ProductLoop(v, rest) case None => Failed
    ensures (match a case Some(v) => SumLoop(v, gap + ([op] + s)) case None => Failed) ==
      match Operate(op, a, b) case Some(v) => SumLoop(v, rest) case None => Failed
  {
    hide ParseProduct, SumLoop;
    if a.Some? {
      SumStep(a.value, gap, op, s);
      if b.Some? {
        ProductStops(b.value, rest);
        SumLoopSkips(Operate(op, a, b).value, rest);
      }
    }
  }

  /** Whatever the spaces and redundant parentheses, a spelled expression is calculated to its value, and
      fails when it divides by zero. */
  lemma SpellingIsCalculated(n: Node, space: string)
    requires WellFormed(n, Sum) && AllSpace(space)
    ensures Calculated(Print(n) + space) == Value(Strip(n))
  {
    SkipsSpace(space, "");
    assert space + "" == space;
    SumParses(n, space);
  }

  // ---------------------------------------------------------------- and nothing else is accepted

  lemma {:induction false} SpaceSkipped(s: string) returns (space: string)
    ensures AllSpace(space) && space + SkipSpace(s) == s
  {
    if s != "" && IsSpace(s[0]) {
      space := SpaceSkipped(s[1..]);
      space := [s[0]] + space;
    } else {
      space := "";
    }
  }

  /** A number's spelling, when the factor starts with no sign and no parenthesis. */
  lemma {:induction false} NumberIsSpelled(s: string, space: string) returns (n: Node)
    requires ParseFactor(s).Parsed? && AllSpace(space) && space + SkipSpace(s) == s
    requires SkipSpace(s) == "" || SkipSpace(s)[0] !in "+-("
    ensures WellFormed(n, Factor) && Print(n) + ParseFactor(s).rest == s
      && Value(Strip(n)) == Some(ParseFactor(s).value)
  {
    hide LiteralValue, IsLiteral, ParseSum;
    SkipTwice(s);
    var t := SkipSpace(s);
    var k := Scan(t, false);
    n := Num(space, t[..k]);
    assert ParseFactor(s) == ParseNumber(t);
    assert t[..k] + t[k..] == t;
    assert Print(n) + t[k..] == space + (t[..k] + t[k..]);
  }

  /** The closing parenthesis, and the spaces before it. */
  lemma {:induction false} CloseIsSpelled(p: Parse) returns (more: string)
    requires Closed(p).Parsed?
    ensures p.Parsed? && AllSpace(more) && p.rest == more + (")" + Closed(p).rest) && Closed(p).value == p.value
  {
    more := SpaceSkipped(p.rest);
    var t := SkipSpace(p.rest);
    assert t == ")" + t[1..];
  }

  lemma {:induction false} SplitFirst(space: string, t: string, s: string)
    requires t != "" && space + t == s
    ensures s == space + ([t[0]] + t[1..])
  {
    assert t == [t[0]] + t[1..];
  }

  lemma GroupPrints(space: string, inner: string, close: string, more: string, rest: string)
    ensures (space + ("(" + (inner + ((close + more) + ")")))) + rest ==
      space + ("(" + (inner + (close + (more + (")" + rest)))))
  {
  }

  lemma InfixPrints(left: string, gap: string, op: char, right: string, rest: string)
    ensures (left + (gap + ([op] + right))) + rest == left + (gap + ([op] + (right + rest)))
  {
  }

  lemma JoinSpaces(a: string, b: string)
    requires AllSpace(a) && AllSpace(b)
    ensures AllSpace(a + b)
  {
  }

  lemma {:induction false} FactorIsSpelled(s: string) returns (n: Node)
    requires ParseFactor(s).Parsed?
    ensures WellFormed(n, Factor) && Print(n) + ParseFactor(s).rest == s
      && Value(Strip(n)) == Some(ParseFactor(s).value)
    decreases |s|, 0
  {
    hide ParseFactor, ParseSum, SkipSpace, AllSpace, Closed;
    var space := SpaceSkipped(s);
    var t := SkipSpace(s);
    if t != "" && (t[0] == '+' || t[0] == '-') {
      SplitFirst(space, t, s);
      SignFactor(space, t[0], t[1..]);
      var arg := FactorIsSpelled(t[1..]);
      n := Signed(space, t[0], arg);
      SignedPrints(space, t[0], Print(arg), ParseFactor(s).rest);
    } else if t != "" && t[0] == '(' {
      SplitFirst(space, t, s);
      GroupFactor(space, t[1..]);
      var more := CloseIsSpelled(ParseSum(t[1..]));
      var inner, close := SumIsSpelled(t[1..]);
      JoinSpaces(close, more);
      n := Group(space, inner, close + more);
      GroupPrints(space, Print(inner), close, more, ParseFactor(s).rest);
    } else {
      n := NumberIsSpelled(s, space);
    }
  }

  lemma SignedPrints(space: string, sign: char, arg: string, rest: string)
    ensures (space + ([sign] + arg)) + rest == space + ([sign] + (arg + rest))
  {
  }

  lemma {:induction false} ProductIsSpelled(s: string) returns (n: Node, space: string)
    requires ParseProduct(s).Parsed?
    ensures WellFormed(n, Product) && AllSpace(space)
    ensures Print(n) + (space + ParseProduct(s).rest) == s && Value(Strip(n)) == Some(ParseProduct(s).value)
    decreases |s|, 2
  {
    hide ParseFactor, ProductLoop, WellFormed, Print, Value, Strip;
    var first := FactorIsSpelled(s);
    AnyLevel(first, Product);
    n, space := ProductLoopIsSpelled(first, ParseFactor(s).value, ParseFactor(s).rest);
  }

  lemma {:induction false} ProductLoopIsSpelled(left: Node, v: real, s: string) returns (n: Node, space: string)
    requires WellFormed(left, Product) && Value(Strip(left)) == Some(v) && ProductLoop(v, s).Parsed?
    ensures WellFormed(n, Product) && AllSpace(space)
    ensures Print(n) + (space + ProductLoop(v, s).rest) == Print(left) + s
      && Value(Strip(n)) == Some(ProductLoop(v, s).value)
    decreases |s|, 1
  {
    hide ParseFactor, ProductLoop, SkipSpace, AllSpace, Operate;
    space := SpaceSkipped(s);
    var t := SkipSpace(s);
    if ProductEnds(s) {
      ProductStops(v, s);
      n := left;
    } else {
      SplitFirst(space, t, s);
      ProductStep(v, space, t[0], t[1..]);
      var p := ParseFactor(t[1..]);
      var right := FactorIsSpelled(t[1..]);
      n := Infix(t[0], left, space, right);
      InfixPrints(Print(left), space, t[0], Print(right), p.rest);
      n, space := ProductLoopIsSpelled(n, Operate(t[0], Some(v), Some(p.value)).value, p.rest);
    }
  }

  lemma {:induction false} SumIsSpelled(s: string) returns (n: Node, space: string)
    requires ParseSum(s).Parsed?
    ensures WellFormed(n, Sum) && AllSpace(space)
    ensures Print(n) + (space + ParseSum(s).rest) == s && Value(Strip(n)) == Some(ParseSum(s).value)
    decreases |s|, 4
  {
    hide ParseProduct, SumLoop, WellFormed, Print, Value, Strip;
    var first, gap := ProductIsSpelled(s);
    ProductIsSum(first);
    n, space := SumLoopIsSpelled(first, ParseProduct(s).value, gap, ParseProduct(s).rest);
  }

  lemma ProductIsSum(n: Node)
    requires WellFormed(n, Product)
    ensures WellFormed(n, Sum)
  {
  }

  lemma {:induction false} SumLoopIsSpelled(left: Node, v: real, gap: string, s: string)
    returns (n: Node, space: string)
    requires WellFormed(left, Sum) && Value(Strip(left)) == Some(v) && AllSpace(gap) && SumLoop(v, s).Parsed?
    ensures WellFormed(n, Sum) && AllSpace(space)
    ensures Print(n) + (space + SumLoop(v, s).rest) == Print(left) + (gap + s)
      && Value(Strip(n)) == Some(SumLoop(v, s).value)
    decreases |s|, 3
  {
    hide ParseProduct, SumLoop, SkipSpace, AllSpace, Operate;
    var more := SpaceSkipped(s);
    var t := SkipSpace(s);
    JoinSpaces(gap, more);
    if t == "" || (t[0] != '+' && t[0] != '-') {
      SumStops(v, s);
      n, space := left, gap + more;
      assert space + t == gap + s;
    } else {
      SplitFirst(more, t, s);
      SumStep(v, more, t[0], t[1..]);
      var p := ParseProduct(t[1..]);
      var right, after := ProductIsSpelled(t[1..]);
      var joined := Infix(t[0], left, gap + more, right);
      InfixPrints(Print(left), gap + more, t[0], Print(right), after + p.rest);
      assert (gap + more) + ([t[0]] + t[1..]) == gap + s;
      n, space := SumLoopIsSpelled(joined, Operate(t[0], Some(v), Some(p.value)).value, after, p.rest);
    }
  }

  lemma {:induction false} SumStops(v: real, s: string)
    requires SkipSpace(s) == "" || (SkipSpace(s)[0] != '+' && SkipSpace(s)[0] != '-')
    ensures SumLoop(v, s) == Parsed(v, SkipSpace(s))
  {
  }

  /** The text is a spelling of an expression with this value. */
  ghost predicate Spells(s: string, v: real) {
    exists n: Node, space: string ::
      WellFormed(n, Sum) && AllSpace(space) && Print(n) + space == s && Value(Strip(n)) == Some(v)
  }

  /** The calculator accepts exactly the spelled expressions without division by zero, with their value. */
  lemma CalculatesExactlyTheGrammar(s: string, v: real)
    ensures Calculated(s) == Some(v) <==> Spells(s, v)
  {
    if Calculated(s) == Some(v) {
      var n, space := SumIsSpelled(s);
      var rest := ParseSum(s).rest;
      var more := SpaceSkipped(rest);
      assert WellFormed(n, Sum) && AllSpace(space + more) && Print(n) + (space + more) == s
        && Value(Strip(n)) == Some(v);
    }
    forall n: Node, space: string | WellFormed(n, Sum) && AllSpace(space) && Print(n) + space == s
      && Value(Strip(n)) == Some(v)
      ensures Calculated(s) == Some(v)
    {
      SpellingIsCalculated(n, space);
    }
  }

  // ---------------------------------------------------------------- what numerals and operators are worth

  predicate AllDigits(s: string) { forall i | 0 <= i < |s| :: IsDigit(s[i]) }

  function DigitWorth(d: char): real
    requires IsDigit(d)
  {
    (d as int - '0' as int) as real
  }

  /** What a digit adds as the n-th after the point. */
  function PlaceWorth(d: char, n: nat): real
    requires IsDigit(d)
  {
    DigitWorth(d) / Pow10(n) as real
  }

  lemma {:induction false} NoDots(s: string)
    requires AllDigits(s)
    ensures Dots(s) == 0 && PointAt(s) == |s|
  {
    if s != "" { NoDots(s[1..]); }
  }

  lemma {:induction false} OneDot(s: string, t: string)
    requires AllDigits(s) && AllDigits(t)
    ensures Dots(s + ("." + t)) == 1 && PointAt(s + ("." + t)) == |s|
  {
    if s == "" {
      assert s + ("." + t) == "." + t && ("." + t)[1..] == t;
      NoDots(t);
    } else {
      assert (s + ("." + t))[1..] == s[1..] + ("." + t);
      OneDot(s[1..], t);
    }
  }

  /** The calculator reads a numeral by itself as the library does. */
  lemma NumeralIsCalculated(s: string)
    requires IsLiteral(s)
    ensures Calculated(s) == Some(LiteralValue(s))
  {
    hide LiteralValue, Calculated;
    SpellingIsCalculated(Num("", s), "");
    assert ("" + s) + "" == s;
  }

  lemma WholeNumeral(s: string)
    requires AllDigits(s) && s != ""
    ensures Calculated(s) == Some(Digits(s) as real)
  {
    hide Calculated;
    NoDots(s);
    assert IsDigit(s[0]);
    NumeralIsCalculated(s);
  }

  lemma PointedNumeral(s: string, t: string)
    requires AllDigits(s) && AllDigits(t) && s + t != ""
    ensures Calculated(s + ("." + t)) == Some(Digits(s) as real + Fraction(t))
  {
    hide Calculated, Digits, Fraction;
    var n := s + ("." + t);
    OneDot(s, t);
    assert n[..|s|] == s && n[|s| + 1..] == t;
    assert IsDigit(if s != "" then n[0] else n[1]);
    NumeralIsCalculated(n);
  }

  lemma {:induction false} DigitsFirst(d: char, t: string)
    requires IsDigit(d)
    ensures Digits([d] + t) == (d as int - '0' as int) * Pow10(|t|) + Digits(t)
  {
    if t == "" {
      assert [d] + t == [d] && [d][..0] == "";
      assert Digits([d]) == Digits("") * 10 + (d as int - '0' as int);
    } else {
      var n := |t| - 1;
      assert ([d] + t)[..|t|] == [d] + t[..n];
      DigitsFirst(d, t[..n]);
    }
  }

  lemma DigitsLast(s: string, d: char)
    requires IsDigit(d)
    ensures Digits(s + [d]) == Digits(s) * 10 + (d as int - '0' as int)
  {
    assert (s + [d])[..|s|] == s;
  }

  /** A digit is worth its distance from zero, and a digit appended to digits makes ten times their value and itself. */
  lemma DigitAppended(s: string, d: char)
    requires AllDigits(s) && IsDigit(d)
    ensures Calculated([d]) == Some(DigitWorth(d))
    ensures s != "" ==> Calculated(s).Some? && Calculated(s + [d]) == Some(10.0 * Calculated(s).value + DigitWorth(d))
  {
    hide Calculated, Digits;
    DigitsLast("", d);
    NothingIsZero();
    assert "" + [d] == [d];
    WholeNumeral([d]);
    if s != "" {
      DigitsLast(s, d);
      WholeNumeral(s);
      WholeNumeral(s + [d]);
    }
  }

  lemma NothingIsZero()
    ensures Digits("") == 0 && Pow10(0) == 1
  {
  }

  /** A numeral without digits after its point is worth its digits. */
  lemma PointAloneAddsNothing(s: string)
    requires AllDigits(s) && s != ""
    ensures Calculated(s + ".").Some? && Calculated(s + ".") == Calculated(s)
  {
    hide Calculated, Digits, Pow10;
    NothingIsZero();
    WholeNumeral(s);
    PointedNumeral(s, "");
    assert "." + "" == ".";
  }

  lemma TenthPart(a: real, b: real, p: real)
    requires p > 0.0
    ensures (10.0 * a + b) / (10.0 * p) == a / p + b / (10.0 * p)
  {
    assert (10.0 * a) / (10.0 * p) == a / p;
  }

  lemma FractionGrows(t: string, d: char)
    requires IsDigit(d)
    ensures Fraction(t + [d]) == Fraction(t) + PlaceWorth(d, |t| + 1)
  {
    hide Digits, Pow10;
    DigitsLast(t, d);
    NextPower(|t|);
    TenthPart(Digits(t) as real, DigitWorth(d), Pow10(|t|) as real);
  }

  lemma NextPower(n: nat)
    ensures Pow10(n + 1) as real == 10.0 * Pow10(n) as real
  {
  }

  lemma Scaled(d: int, p: int)
    ensures (d * p) as real == d as real * p as real
  {
  }

  lemma FractionShifts(d: char, t: string)
    requires IsDigit(d)
    ensures 10.0 * Fraction([d] + t) == DigitWorth(d) + Fraction(t)
  {
    hide Digits, Pow10;
    DigitsFirst(d, t);
    NextPower(|t|);
    Scaled(d as int - '0' as int, Pow10(|t|));
    assert |[d] + t| == |t| + 1;
    Shifted(DigitWorth(d), Digits(t) as real, Pow10(|t|) as real);
  }

  lemma Shifted(d: real, b: real, p: real)
    requires p > 0.0
    ensures 10.0 * ((d * p + b) / (10.0 * p)) == d + b / p
  {
    assert (d * p + b) / (10.0 * p) == (d * p + b) / p / 10.0;
    assert (d * p + b) / p == d + b / p;
  }

  /** As the n-th digit after the point, a digit adds itself divided by the n-th power of ten. */
  lemma FractionAppended(s: string, t: string, d: char)
    requires AllDigits(s) && AllDigits(t) && IsDigit(d) && s + t != ""
    ensures Calculated(s + ("." + t)).Some?
    ensures Calculated(s + ("." + (t + [d]))) ==
      Some(Calculated(s + ("." + t)).value + PlaceWorth(d, |t| + 1))
  {
    hide Calculated, Digits, Fraction, PlaceWorth;
    PointedNumeral(s, t);
    PointedNumeral(s, t + [d]);
    FractionGrows(t, d);
  }

  /** Moving the point behind the next digit makes ten times the value. */
  lemma PointMoves(s: string, d: char, t: string)
    requires AllDigits(s) && IsDigit(d) && AllDigits(t)
    ensures Calculated(s + ("." + ([d] + t))).Some?
    ensures Calculated((s + [d]) + ("." + t)) == Some(10.0 * Calculated(s + ("." + ([d] + t))).value)
  {
    hide Calculated, Digits, Fraction;
    PointedNumeral(s, [d] + t);
    PointedNumeral(s + [d], t);
    DigitsLast(s, d);
    FractionShifts(d, t);
  }

  /** What each operator makes of the calculated values of its operands. */
  lemma OperatorsCompute(a: Node, b: Node, u: real, v: real)
    requires Calculated(Print(a)) == Some(u) && Calculated(Print(b)) == Some(v)
    ensures WellFormed(a, Product) && WellFormed(b, Factor) ==>
      && Calculated(Print(a) + "*" + Print(b)) == Some(u * v)
      && Calculated(Print(a) + "/" + Print(b)) == if v == 0.0 then None else Some(u / v)
    ensures WellFormed(a, Sum) && WellFormed(b, Product) ==>
      && Calculated(Print(a) + "+" + Print(b)) == Some(u + v)
      && Calculated(Print(a) + "-" + Print(b)) == Some(u - v)
  {
    hide Calculated, Print;
    if WellFormed(a, Product) && WellFormed(b, Factor) {
      InfixCalculated(a, b, '*');
      InfixCalculated(a, b, '/');
    }
    if WellFormed(a, Sum) && WellFormed(b, Product) {
      InfixCalculated(a, b, '+');
      InfixCalculated(a, b, '-');
    }
  }

  /** What a sign or a pair of parentheses makes of the calculated value of its operand. */
  lemma SignsAndGroupsCompute(n: Node, v: real)
    requires Calculated(Print(n)) == Some(v)
    ensures WellFormed(n, Factor) ==> Calculated("-" + Print(n)) == Some(-v) && Calculated("+" + Print(n)) == Some(v)
    ensures WellFormed(n, Sum) ==> Calculated("(" + Print(n) + ")") == Some(v)
  {
    hide Calculated, Print;
    if WellFormed(n, Factor) {
      AnyLevel(n, Sum);
      NodeCalculated(n);
      NodeCalculated(Signed("", '-', n));
      NodeCalculated(Signed("", '+', n));
      SignedText(n);
    }
    if WellFormed(n, Sum) {
      NodeCalculated(n);
      NodeCalculated(Group("", n, ""));
      GroupText(n);
    }
  }

  lemma SignedText(n: Node)
    ensures Print(Signed("", '-', n)) == "-" + Print(n) && Print(Signed("", '+', n)) == "+" + Print(n)
  {
  }

  lemma GroupText(n: Node)
    ensures Print(Group("", n, "")) == "(" + Print(n) + ")"
  {
  }

  lemma NodeCalculated(n: Node)
    requires WellFormed(n, Sum)
    ensures Calculated(Print(n)) == Value(Strip(n))
  {
    hide Calculated, Print;
    SpellingIsCalculated(n, "");
    assert Print(n) + "" == Print(n);
  }

  lemma InfixCalculated(a: Node, b: Node, op: char)
    requires WellFormed(Infix(op, a, "", b), Sum)
    ensures Calculated(Print(a) + [op] + Print(b)) == Operate(op, Calculated(Print(a)), Calculated(Print(b)))
  {
    hide Calculated, Operate;
    if op == '+' || op == '-' {
      ProductIsSum(b);
    } else {
      ProductIsSum(a);
      AnyLevel(b, Sum);
    }
    NodeCalculated(a);
    NodeCalculated(b);
    NodeCalculated(Infix(op, a, "", b));
    assert Print(Infix(op, a, "", b)) == Print(a) + [op] + Print(b);
  }

  // ---------------------------------------------------------------- the parser over a moving position

  class ExpressionParser {
    const input: string
    var pos: nat

    constructor (text: string)
      ensures input == text && pos == 0
    {
      input, pos := text, 0;
    }

    predicate Valid()
      reads this
    {
      pos <= |input|
    }

    function Remaining(): string
      requires Valid()
      reads this
    {
      input[pos..]
    }

    /** What a parsing method leaves: the value and the position of the functional parser, or a failure. */
    ghost predicate Leaves(r: Option<real>, p: Parse)
      reads this
    {
      Valid() && match p case Parsed(v, rest) => r == Some(v) && Remaining() == rest case Failed => r == None
    }

    method SkipBlanks()
      requires Valid()
      modifies this`pos
      ensures Valid() && pos >= old(pos) && Remaining() == SkipSpace(old(Remaining()))
    {
      while pos < |input| && IsSpace(input[pos])
        invariant Valid() && pos >= old(pos) && SkipSpace(Remaining()) == SkipSpace(old(Remaining()))
        decreases |input| - pos
      {
        pos := pos + 1;
      }
    }

    method Accept(want: char) returns (ok: bool)
      requires Valid()
      modifies this`pos
      ensures Valid() && ok == (old(Remaining()) != "" && old(Remaining())[0] == want)
      ensures Remaining() == if ok then old(Remaining())[1..] else old(Remaining())
      ensures pos == old(pos) + (if ok then 1 else 0) && (ok ==> input[pos - 1] == want)
    {
      ok := pos < |input| && input[pos] == want;
      if ok { pos := pos + 1; }
    }

    method ParseDigits() returns (r: Option<real>)
      requires Valid()
      modifies this`pos
      ensures Leaves(r, ParseNumber(old(Remaining()))) && (r.Some? ==> pos > old(pos))
    {
      hide IsLiteral, LiteralValue, ParseFloat, IsDigit, IsSpace, SkipSpace;
      SkipBlanks();
      ghost var t := Remaining();
      var start, dots := pos, 0;
      while pos < |input|
        invariant start <= pos && Valid() && 0 <= dots <= 1
        invariant Scan(t, false) == (pos - start) + Scan(Remaining(), dots == 1)
        decreases |input| - pos
      {
        var c := input[pos];
        if c == '.' {
          dots := dots + 1;
          if dots > 1 { break; }
        } else if !IsDigit(c) {
          break;
        }
        pos := pos + 1;
      }
      assert pos - start == Scan(t, false);
      assert input[start..pos] == t[..pos - start] && Remaining() == t[pos - start..];
      if start == pos { return None; }
      r := ParseFloat(input[start..pos]);
    }

    method ParseOperand() returns (r: Option<real>)
      requires Valid()
      modifies this`pos
      ensures Leaves(r, ParseFactor(old(Remaining()))) && (r.Some? ==> pos > old(pos))
      decreases |input| - pos, 0
    {
      hide ParseSum, ParseNumber;
      SkipBlanks();
      ghost var t := Remaining();
      var ok := Accept('+');
      if ok {
        r := ParseOperand();
        return;
      }
      ok := Accept('-');
      if ok {
        r := ParseOperand();
        r := match r case Some(v) => Some(-v) case None => None;
        return;
      }
      ok := Accept('(');
      if ok {
        r := ParseExpression();
        if r == None { return; }
        SkipBlanks();
        ok := Accept(')');
        return if ok then r else None;
      }
      r := ParseDigits();
    }

    method ParseTerm() returns (r: Option<real>)
      requires Valid()
      modifies this`pos
      ensures Leaves(r, ParseProduct(old(Remaining()))) && (r.Some? ==> pos > old(pos))
      decreases |input| - pos, 1
    {
      hide ParseFactor, ProductLoop, SkipSpace, Remaining;
      r := ParseOperand();
      if r == None { return; }
      var left := r.value;
      while true
        invariant Valid() && old(pos) < pos
        invariant ParseProduct(old(Remaining())) == ProductLoop(left, Remaining())
        decreases |input| - pos
      {
        ghost var s := Remaining();
        SkipBlanks();
        ProductTurn(left, s);
        var more := Accept('*');
        if !more { more := Accept('/'); }
        if !more { return Some(left); }
        var op := input[pos - 1];
        assert op == SkipSpace(s)[0] && Remaining() == SkipSpace(s)[1..];
        var right := ParseOperand();
        if right == None { return None; }
        if op == '*' {
          left := Times(left, right.value);
        } else {
          if right.value == 0.0 { return None; }
          left := left / right.value;
        }
      }
    }

    method ParseExpression() returns (r: Option<real>)
      requires Valid()
      modifies this`pos
      ensures Leaves(r, ParseSum(old(Remaining()))) && (r.Some? ==> pos > old(pos))
      decreases |input| - pos, 2
    {
      hide ParseProduct, SumLoop, SkipSpace, Remaining;
      r := ParseTerm();
      if r == None { return; }
      var left := r.value;
      while true
        invariant Valid() && old(pos) < pos
        invariant ParseSum(old(Remaining())) == SumLoop(left, Remaining())
        decreases |input| - pos
      {
        ghost var s := Remaining();
        SkipBlanks();
        SumTurn(left, s);
        var more := Accept('+');
        if !more { more := Accept('-'); }
        if !more { return Some(left); }
        var op := input[pos - 1];
        assert op == SkipSpace(s)[0] && Remaining() == SkipSpace(s)[1..];
        var right := ParseTerm();
        if right == None { return None; }
        left := if op == '+' then left + right.value else left - right.value;
      }
    }
  }

  /** The tool's entry: the whole input has to be an expression. By CalculatesExactlyTheGrammar, the answer
      is the value of the spelled expression, and there is one only if the input spells one. */
  method Calculate(expression: string) returns (r: Option<real>)
    ensures r == Calculated(expression)
    ensures forall v :: r == Some(v) <==> Spells(expression, v)
  {
    var p := new ExpressionParser(expression);
    assert p.Remaining() == expression;
    r := p.ParseExpression();
    if r.Some? {
      p.SkipBlanks();
      if p.pos != |p.input| { r := None; }
    }
    forall v ensures Calculated(expression) == Some(v) <==> Spells(expression, v) {
      CalculatesExactlyTheGrammar(expression, v);
    }
  }
}
