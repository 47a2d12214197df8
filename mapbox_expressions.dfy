/**
 * The Mapbox-style expression evaluator used by the widget renderers:
 * an expression is an array whose first element names the operator
 * (["get", "temperature"], ["case", cond, value, ..., fallback]).
 *
 * JavaScript's own behaviour on operand types the model does not compute
 * (NaN, Infinity, parsing numbers out of strings) and date formatting are
 * supplied by the `rt` parameter: rt(op, operands) is the value the
 * JavaScript runtime produces for that operator.
 */
module MapboxExpressions {
  import opened Base
  import opened Strings
  import opened JsValues

  type Runtime = (string, seq<JVal>) -> JVal

  /** A value is an expression iff it is a non-empty array whose first element is a string. */
  predicate IsExpression(v: JVal)
  {
    v.Arr? && |v.items| > 0 && v.items[0].Str?
  }

  lemma IsExpressionExactly(v: JVal)
    ensures IsExpression(v) <==> exists op: string, rest: seq<JVal> :: v == Arr([Str(op)] + rest)
  {
    if IsExpression(v) {
      assert v == Arr([Str(v.items[0].s)] + v.items[1..]);
    }
  }

  /** Follows the property names from `current`; stops with undefined at the first undefined or null value. */
  function Walk(current: JVal, parts: seq<string>): (r: JVal)
    ensures parts == [] ==> r == current
    ensures parts != [] && current.IsNullish() ==> r == Undefined
    decreases parts
  {
    if parts == [] then current
    else if current.IsNullish() then Undefined
    else Walk(Member(current, parts[0]), parts[1..])
  }

  /**
   * The "get" operator on a property path: "data.x.y" starts at context.data
   * (when that is truthy); a bare name that context.data defines is read from
   * there; any other path is read from the context itself.
   */
  function GetPath(prop: string, ctx: JVal): (r: JVal)
    requires ctx.Obj?
  {
    var parts := Split(prop, ".");
    var data := Member(ctx, "data");
    if parts[0] == "data" && Truthy(data) then Walk(data, parts[1..])
    else if |parts| == 1 && Truthy(data) && Member(data, parts[0]) != Undefined then Walk(data, parts)
    else Walk(ctx, parts)
  }

  /** ["get", p] and ["has", p] read p as a string; anything else makes prop.split throw. */
  function Get(propArg: JVal, ctx: JVal): (r: Outcome<JVal>)
    requires ctx.Obj?
    ensures r.Thrown? <==> !propArg.Str?
  {
    if propArg.Str? then Ok(GetPath(propArg.s, ctx)) else Thrown("TypeError")
  }

  function Op(e: JVal): (r: string) requires IsExpression(e) { e.items[0].s }

  function ArgCount(e: JVal): (r: nat) requires IsExpression(e) { |e.items| - 1 }

  /** args[i], undefined when absent. */
  function Arg(e: JVal, i: nat): (r: JVal)
    requires IsExpression(e)
    ensures i >= ArgCount(e) ==> r == Undefined
    ensures i < ArgCount(e) ==> r in e.items
  {
    if i + 1 < |e.items| then e.items[i + 1] else Undefined
  }

  function ToNumeric(v: JVal): (r: real)
    requires v.Null? || v.Bool? || v.Num?
  {
    match v
    case Null => 0.0
    case Bool(b) => if b then 1.0 else 0.0
    case Num(n) => n
  }

  predicate IsNumeric(v: JVal) { v.Null? || v.Bool? || v.Num? }

  /** a + b: string concatenation when either side is a string or an object, numeric addition otherwise. */
  function Plus(a: JVal, b: JVal, rt: Runtime): (r: JVal)
    ensures a.Str? && b.Str? ==> r == Str(a.s + b.s)
    ensures a.Num? && b.Num? ==> r == Num(a.n + b.n)
  {
    if a.Str? || a.Arr? || a.Obj? || b.Str? || b.Arr? || b.Obj? then Str(ToString(a) + ToString(b))
    else if IsNumeric(a) && IsNumeric(b) then Num(ToNumeric(a) + ToNumeric(b))
    else rt("+", [a, b])
  }

  function Arith(op: string, a: JVal, b: JVal, rt: Runtime): (r: JVal)
  {
    if op == "+" then Plus(a, b, rt)
    else if !(IsNumeric(a) && IsNumeric(b)) then rt(op, [a, b])
    else if op == "-" then Num(ToNumeric(a) - ToNumeric(b))
    else if op == "*" then Num(ToNumeric(a) * ToNumeric(b))
    else if ToNumeric(b) != 0.0 then Num(ToNumeric(a) / ToNumeric(b))
    else rt(op, [a, b])
  }

  /**
   * a === b. Values of different kinds and primitives compare by value;
   * two arrays or objects are equal only when they are the same reference,
   * which a value does not record, so the runtime answers that case.
   */
  function StrictEquals(a: JVal, b: JVal, rt: Runtime): (r: bool)
    ensures !(a.Arr? || a.Obj?) ==> (r <==> a == b)
  {
    if (a.Arr? || a.Obj?) && (b.Arr? || b.Obj?) then Truthy(rt("===", [a, b])) else a == b
  }

  /**
   * Lexicographic order on Unicode code points. JavaScript's < compares
   * UTF-16 code units instead; the two differ only when a character outside
   * the Basic Multilingual Plane meets one in U+E000..U+FFFF.
   */
  predicate StrLess(a: string, b: string)
  {
    if a == [] then b != []
    else if b == [] then false
    else if a[0] != b[0] then a[0] < b[0]
    else StrLess(a[1..], b[1..])
  }

  function CompareReals(op: string, x: real, y: real): (r: bool)
  {
    if op == "<" then x < y
    else if op == "<=" then x <= y
    else if op == ">" then x > y
    else x >= y
  }

  /** a < b, a <= b, a > b, a >= b. undefined converts to NaN, so every comparison with it is false. */
  function Relational(op: string, a: JVal, b: JVal, rt: Runtime): (r: JVal)
    ensures a.Undefined? || b.Undefined? ==> r == Bool(false)
  {
    if a.Str? && b.Str? then
      Bool(if op == "<" then StrLess(a.s, b.s)
           else if op == "<=" then !StrLess(b.s, a.s)
           else if op == ">" then StrLess(b.s, a.s)
           else !StrLess(a.s, b.s))
    else if a.Undefined? || b.Undefined? then Bool(false)
    else if IsNumeric(a) && IsNumeric(b) then Bool(CompareReals(op, ToNumeric(a), ToNumeric(b)))
    else rt(op, [a, b])
  }

  /** ToIntegerOrInfinity for the operands of substring: numbers truncate towards zero, undefined and null are 0. */
  function ToInteger(v: JVal): (r: Option<int>)
    ensures r.None? <==> v.Str? || v.Arr? || v.Obj?
    ensures v.Num? && v.n >= 0.0 ==> 0 <= r.value && r.value as real <= v.n < r.value as real + 1.0
    ensures v.Num? && v.n < 0.0 ==> r.value <= 0 && r.value as real - 1.0 < v.n <= r.value as real
  {
    match v
    case Undefined => Some(0)
    case Null => Some(0)
    case Bool(b) => Some(if b then 1 else 0)
    case Num(n) => Some(if n >= 0.0 then n.Floor else -((-n).Floor))
    case _ => None
  }

  function Clamp(i: int, len: nat): (r: nat)
    ensures r <= len
  {
    if i < 0 then 0 else if i > len then len else i
  }

  /** String.prototype.substring(a, b): both ends clamped to the string, then ordered. */
  function Substring(s: string, a: int, b: int): (r: string)
    ensures |r| <= |s|
  {
    var x := Clamp(a, |s|);
    var y := Clamp(b, |s|);
    if x <= y then s[x..y] else s[y..x]
  }

  function Evaluate(expr: JVal, ctx: JVal, rt: Runtime): (r: Outcome<JVal>)
    requires ctx.Obj?
    ensures expr.IsNullish() ==> r == Ok(Null)
    ensures (expr.Str? || expr.Num? || expr.Bool?) ==> r == Ok(expr)
    ensures !expr.IsNullish() && !IsExpression(expr) ==> r == Ok(expr)
    decreases expr, 1
  {
    if expr.IsNullish() then Ok(Null)
    else if !IsExpression(expr) then Ok(expr)
    else
      var op := Op(expr);
      if op == "get" then Get(Arg(expr, 0), ctx)
      else if op == "has" then
        (match Get(Arg(expr, 0), ctx)
         case Ok(v) => Ok(Bool(v != Undefined && v != Null && v != Str("")))
         case Thrown(t) => Thrown(t))
      else if op in {"+", "-", "*", "/"} then
        (match EvalArg(expr, 0, ctx, rt)
         case Thrown(t) => Thrown(t)
         case Ok(a) =>
           match EvalArg(expr, 1, ctx, rt)
           case Thrown(t) => Thrown(t)
           case Ok(b) => Ok(Arith(op, a, b, rt)))
      else if op in {"<", "<=", ">", ">=", "==", "!="} then
        (match EvalArg(expr, 0, ctx, rt)
         case Thrown(t) => Thrown(t)
         case Ok(a) =>
           match EvalArg(expr, 1, ctx, rt)
           case Thrown(t) => Thrown(t)
           case Ok(b) =>
             Ok(if op == "==" then Bool(StrictEquals(a, b, rt))
                else if op == "!=" then Bool(!StrictEquals(a, b, rt))
                else Relational(op, a, b, rt)))
      else if op == "!" then
        (match EvalArg(expr, 0, ctx, rt)
         case Thrown(t) => Thrown(t)
         case Ok(a) => Ok(Bool(!Truthy(a))))
      else if op == "all" then
        (match EvalAll(expr, 0, ctx, rt) case Ok(b) => Ok(Bool(b)) case Thrown(t) => Thrown(t))
      else if op == "any" then
        (match EvalAny(expr, 0, ctx, rt) case Ok(b) => Ok(Bool(b)) case Thrown(t) => Thrown(t))
      else if op == "case" then EvalCase(expr, 0, ctx, rt)
      else if op == "substring" then EvalSubstring(expr, ctx, rt)
      else if op == "format" then
        (match EvalArg(expr, 0, ctx, rt)
         case Thrown(t) => Thrown(t)
         case Ok(v) => Ok(rt("format", [v, Arg(expr, 1)])))
      else Ok(Undefined)
  }

  /** evaluateExpression(args[i], context); a missing argument is undefined, which evaluates to null. */
  function EvalArg(e: JVal, i: nat, ctx: JVal, rt: Runtime): (r: Outcome<JVal>)
    requires IsExpression(e) && ctx.Obj?
    decreases e, 0, 0
  {
    if i + 1 < |e.items| then Evaluate(e.items[i + 1], ctx, rt) else Ok(Null)
  }

  /** args.every(a => evaluateExpression(a, context)) over args[i..]. */
  function EvalAll(e: JVal, i: nat, ctx: JVal, rt: Runtime): (r: Outcome<bool>)
    requires IsExpression(e) && ctx.Obj?
    decreases e, 0, |e.items| - i
  {
    if i + 1 >= |e.items| then Ok(true)
    else
      match Evaluate(e.items[i + 1], ctx, rt)
      case Thrown(t) => Thrown(t)
      case Ok(v) => if !Truthy(v) then Ok(false) else EvalAll(e, i + 1, ctx, rt)
  }

  /** args.some(a => evaluateExpression(a, context)) over args[i..]. */
  function EvalAny(e: JVal, i: nat, ctx: JVal, rt: Runtime): (r: Outcome<bool>)
    requires IsExpression(e) && ctx.Obj?
    decreases e, 0, |e.items| - i
  {
    if i + 1 >= |e.items| then Ok(false)
    else
      match Evaluate(e.items[i + 1], ctx, rt)
      case Thrown(t) => Thrown(t)
      case Ok(v) => if Truthy(v) then Ok(true) else EvalAny(e, i + 1, ctx, rt)
  }

  /** The condition/value pairs from args[i] on, then the fallback when the argument count is odd, else null. */
  function EvalCase(e: JVal, i: nat, ctx: JVal, rt: Runtime): (r: Outcome<JVal>)
    requires IsExpression(e) && ctx.Obj?
    decreases e, 0, |e.items| - i
  {
    var n := ArgCount(e);
    if i + 1 < n then
      match Evaluate(e.items[i + 1], ctx, rt)
      case Thrown(t) => Thrown(t)
      case Ok(c) => if Truthy(c) then Evaluate(e.items[i + 2], ctx, rt) else EvalCase(e, i + 2, ctx, rt)
    else if n % 2 == 1 then Evaluate(e.items[n], ctx, rt)
    else Ok(Null)
  }

  /** String(value || '').substring(start[, start + length]). */
  function EvalSubstring(e: JVal, ctx: JVal, rt: Runtime): (r: Outcome<JVal>)
    requires IsExpression(e) && ctx.Obj?
    decreases e, 0, 1
  {
    match EvalArg(e, 0, ctx, rt)
    case Thrown(t) => Thrown(t)
    case Ok(v) =>
      var str := if Truthy(v) then ToString(v) else "";
      match EvalArg(e, 1, ctx, rt)
      case Thrown(t) => Thrown(t)
      case Ok(start) =>
        match (if ArgCount(e) > 2 then EvalArg(e, 2, ctx, rt) else Ok(Undefined))
        case Thrown(t) => Thrown(t)
        case Ok(length) =>
          if length != Undefined then
            var end := Plus(start, length, rt);
            match (ToInteger(start), ToInteger(end))
            case (Some(a), Some(b)) => Ok(Str(Substring(str, a, b)))
            case _ => Ok(rt("substring", [Str(str), start, end]))
          else
            match ToInteger(start)
            case Some(a) => Ok(Str(Substring(str, a, |str|)))
            case None => Ok(rt("substring", [Str(str), start]))
  }

  // ---------------------------------------------------------------------
  // Properties
  // ---------------------------------------------------------------------

  /** A path starting with "data." is resolved inside context.data when that is truthy. */
  lemma GetDataPrefix(rest: string, ctx: JVal)
    requires ctx.Obj? && Truthy(Member(ctx, "data"))
    ensures GetPath("data." + rest, ctx) == Walk(Member(ctx, "data"), Split(rest, "."))
  {
    assert "data." + rest == "data" + "." + rest;
    SplitAfterFirst("data", rest, '.');
  }

  lemma {:induction false} SplitAfterFirst(head: string, rest: string, c: char)
    requires forall k :: 0 <= k < |head| ==> head[k] != c
    ensures Split(head + [c] + rest, [c]) == [head] + Split(rest, [c])
  {
    var s := head + [c] + rest;
    if head == [] {
      assert [c] <= s;
      assert s[1..] == rest;
    } else {
      assert s[0] == head[0];
      assert s[1..] == head[1..] + [c] + rest;
      SplitAfterFirst(head[1..], rest, c);
      assert [head[0]] + head[1..] == head;
    }
  }

  /** A missing intermediate property makes the whole path undefined. */
  lemma {:induction false} WalkStopsAtNullish(current: JVal, parts: seq<string>, k: nat)
    requires k < |parts|
    requires Walk(current, parts[..k]).IsNullish()
    ensures Walk(current, parts) == Undefined
    decreases k
  {
    if k == 0 {
      assert parts[..0] == [];
    } else if current.IsNullish() {
    } else {
      assert parts[..k][1..] == parts[1..][..k - 1];
      WalkStopsAtNullish(Member(current, parts[0]), parts[1..], k - 1);
    }
  }

  /** "has" holds exactly when "get" of the same path gives a value other than undefined, null and ''. */
  lemma HasIffGet(p: JVal, ctx: JVal, rt: Runtime)
    requires ctx.Obj?
    ensures Evaluate(Arr([Str("has"), p]), ctx, rt).Ok? <==> Evaluate(Arr([Str("get"), p]), ctx, rt).Ok?
    ensures Evaluate(Arr([Str("has"), p]), ctx, rt) == Ok(Bool(true))
      <==> (exists v :: Evaluate(Arr([Str("get"), p]), ctx, rt) == Ok(v) && !v.IsNullish() && v != Str(""))
  {
    var h := Arr([Str("has"), p]);
    var g := Arr([Str("get"), p]);
    assert Arg(h, 0) == p && Arg(g, 0) == p;
    if p.Str? {
      var v := GetPath(p.s, ctx);
      assert Evaluate(g, ctx, rt) == Ok(v);
    }
  }

  /** "!=" succeeds exactly when "==" does, and then gives the opposite boolean. */
  lemma NotEqualsNegates(x: JVal, y: JVal, ctx: JVal, rt: Runtime)
    requires ctx.Obj?
    ensures var eq := Evaluate(Arr([Str("=="), x, y]), ctx, rt);
      var ne := Evaluate(Arr([Str("!="), x, y]), ctx, rt);
      (eq.Ok? <==> ne.Ok?) && (eq.Ok? ==> eq.value.Bool? && ne == Ok(Bool(!eq.value.b)))
  {
    var e := Arr([Str("=="), x, y]);
    var n := Arr([Str("!="), x, y]);
    assert EvalArg(e, 0, ctx, rt) == Evaluate(x, ctx, rt) == EvalArg(n, 0, ctx, rt);
    assert EvalArg(e, 1, ctx, rt) == Evaluate(y, ctx, rt) == EvalArg(n, 1, ctx, rt);
  }

  /** Two string, number or boolean literals are equal under "==" exactly when they are the same value. */
  lemma PrimitiveEquality(x: JVal, y: JVal, ctx: JVal, rt: Runtime)
    requires ctx.Obj?
    requires x.Str? || x.Num? || x.Bool?
    requires y.Str? || y.Num? || y.Bool?
    ensures Evaluate(Arr([Str("=="), x, y]), ctx, rt) == Ok(Bool(x == y))
  {
    var e := Arr([Str("=="), x, y]);
    assert EvalArg(e, 0, ctx, rt) == Ok(x);
    assert EvalArg(e, 1, ctx, rt) == Ok(y);
  }

  /** An operator the evaluator does not know yields undefined. */
  lemma UnknownOperator(op: string, args: seq<JVal>, ctx: JVal, rt: Runtime)
    requires ctx.Obj?
    requires op !in {"get", "has", "+", "-", "*", "/", "<", "<=", ">", ">=", "==", "!=", "!", "all", "any", "case", "substring", "format"}
    ensures Evaluate(Arr([Str(op)] + args), ctx, rt) == Ok(Undefined)
  {
  }

  /** "all" is the conjunction and "any" the disjunction of the truthiness of the arguments, when none throws. */
  lemma {:induction false} AllAnyAreConjunctionDisjunction(e: JVal, i: nat, ctx: JVal, rt: Runtime, vals: seq<JVal>)
    requires IsExpression(e) && ctx.Obj? && i <= ArgCount(e)
    requires |vals| == ArgCount(e)
    requires forall k :: i <= k < ArgCount(e) ==> Evaluate(e.items[k + 1], ctx, rt) == Ok(vals[k])
    ensures EvalAll(e, i, ctx, rt) == Ok(forall k :: i <= k < |vals| ==> Truthy(vals[k]))
    ensures EvalAny(e, i, ctx, rt) == Ok(exists k :: i <= k < |vals| && Truthy(vals[k]))
    decreases |vals| - i
  {
    if i < |vals| {
      AllAnyAreConjunctionDisjunction(e, i + 1, ctx, rt, vals);
      assert (forall k :: i <= k < |vals| ==> Truthy(vals[k]))
        == (Truthy(vals[i]) && forall k :: i + 1 <= k < |vals| ==> Truthy(vals[k]));
      assert (exists k :: i <= k < |vals| && Truthy(vals[k]))
        == (Truthy(vals[i]) || exists k :: i + 1 <= k < |vals| && Truthy(vals[k]));
    }
  }

  /**
   * "case" yields the value paired with the first truthy condition: when the
   * conditions args[0], args[2], ..., args[2j-2] evaluate to falsy values and
   * args[2j] to a truthy one, the result is the evaluation of args[2j+1].
   */
  lemma {:induction false} CaseFirstTruthy(e: JVal, i: nat, j: nat, ctx: JVal, rt: Runtime)
    requires IsExpression(e) && ctx.Obj? && i % 2 == 0 && i <= j && j % 2 == 0 && j + 1 < ArgCount(e)
    requires forall k :: i <= k < j && k % 2 == 0 ==>
      exists c :: Evaluate(e.items[k + 1], ctx, rt) == Ok(c) && !Truthy(c)
    requires exists c :: Evaluate(e.items[j + 1], ctx, rt) == Ok(c) && Truthy(c)
    ensures EvalCase(e, i, ctx, rt) == Evaluate(e.items[j + 2], ctx, rt)
    decreases j - i
  {
    if i < j {
      assert i % 2 == 0 && i < j;
      var c :| Evaluate(e.items[i + 1], ctx, rt) == Ok(c) && !Truthy(c);
      CaseFirstTruthy(e, i + 2, j, ctx, rt);
    }
  }

  /**
   * When no condition holds, "case" yields its last argument if the
   * argument count is odd, and null otherwise.
   */
  lemma {:induction false} CaseNoMatch(e: JVal, i: nat, ctx: JVal, rt: Runtime)
    requires IsExpression(e) && ctx.Obj? && i % 2 == 0 && i <= ArgCount(e)
    requires forall k :: i <= k && k + 1 < ArgCount(e) && k % 2 == 0 ==>
      exists c :: Evaluate(e.items[k + 1], ctx, rt) == Ok(c) && !Truthy(c)
    ensures ArgCount(e) % 2 == 1 ==> EvalCase(e, i, ctx, rt) == Evaluate(e.items[ArgCount(e)], ctx, rt)
    ensures ArgCount(e) % 2 == 0 ==> EvalCase(e, i, ctx, rt) == Ok(Null)
    decreases ArgCount(e) - i
  {
    if i + 1 < ArgCount(e) {
      var c :| Evaluate(e.items[i + 1], ctx, rt) == Ok(c) && !Truthy(c);
      CaseNoMatch(e, i + 2, ctx, rt);
    }
  }
}
