/** The syntax tree and the value type (src/parser/ast.rs).

    The datatypes are the union of what ast.rs declares and what the parser and the built-ins
    construct: `Statement.Break`/`Continue`, `Expression.Increment`/`Decrement` and the
    arithmetic-assignment and `Mod` operators come from parser.rs. The value type follows
    builtins.rs: an array value is a handle on a shared, mutable cell (`Rc<RefCell<Vec<…>>>`),
    so two values may alias one array, and a native function is named and may carry the
    receiver its closure captured. Numbers are integers. */
module Ast {
  import opened Wrappers

  datatype BinaryOperator =
    | Add | Sub | Mul | Div | Mod
    | BinaryAnd | BinaryOr
    | GreaterThan | LessThan | GreaterThanOrEqual | LessThanOrEqual
    | Equal | NotEqual
    | PlusEqual | MinusEqual | MulEqual | DivEqual

  datatype UnaryOperator = Negate | Not

  /** The shared cell behind an array value. */
  class SharedArray {
    var elements: seq<Literal>

    constructor (elements: seq<Literal>)
      ensures this.elements == elements
    {
      this.elements := elements;
    }
  }

  /** A native function: its name (as given to `NativeFn::new`) and, for a method looked up on
      an array or a string, the receiver captured by its closure. */
  datatype NativeFn = NativeFn(name: string, receiver: Option<Literal>)

  datatype Literal =
    | Number(n: int)
    | String(s: string)
    | Null
    | Boolean(b: bool)
    | Undefined
    | Array(cell: SharedArray)
    | Object(properties: seq<(string, Literal)>)
    | Function(args: seq<string>, body: Statement)
    | NativeFunction(native: NativeFn)

  datatype Expression =
    | Literal(lit: Literal)
    | Identifier(name: string)
    | Object(fields: seq<(string, Expression)>)
    | Array(elements: seq<Expression>)
    | BinaryOp(left: Expression, op: BinaryOperator, right: Expression)
    | UnaryOp(unary: UnaryOperator, operand: Expression)
    | FunctionCall(callee: Expression, args: seq<Expression>)
    | Assignment(target: Expression, value: Expression)
    | Index(target: Expression, index: Expression)
    | Property(target: Expression, name: string)
    | Increment(target: Expression)
    | Decrement(target: Expression)

  datatype Statement =
    | Expression(expr: Expression)
    | Return(expr: Expression)
    | If(condition: Expression, consequence: Statement, alternative: Option<Statement>)
    | While(condition: Expression, body: Statement)
    | For(init: Option<Statement>, test: Option<Expression>, update: Option<Expression>, body: Statement)
    | Function(name: string, params: seq<string>, body: Statement)
    | Scope(statements: seq<Statement>)
    | Let(name: string, value: Expression)
    | Break
    | Continue

  datatype AST = AST(statements: seq<Statement>)

  /** The values `truthy` maps to false. */
  predicate IsFalsyValue(v: Literal)
    reads if v.Array? then {v.cell} else {}
  {
    || v == Literal.Number(0)
    || v == Literal.String("")
    || v == Literal.Null
    || v == Boolean(false)
    || v == Literal.Undefined
    || (v.Array? && v.cell.elements == [])
    || v == Literal.Object([])
  }

  /** `Literal::truthy` (ast.rs:43-55). An array is judged by the current contents of its cell. */
  function Truthy(v: Literal): (b: bool)
    reads if v.Array? then {v.cell} else {}
    ensures b <==> !IsFalsyValue(v)
  {
    match v
    case Number(n) => n != 0
    case String(s) => |s| > 0
    case Null => false
    case Boolean(b) => b
    case Undefined => false
    case Array(cell) => |cell.elements| > 0
    case Object(o) => |o| > 0
    case Function(_, _) => true
    case NativeFunction(_) => true
  }

  /** Functions, native functions, non-empty strings, non-zero numbers and `true` are truthy. */
  lemma TruthyValues(args: seq<string>, body: Statement, f: NativeFn, n: int, s: string)
    ensures Truthy(Literal.Function(args, body)) && Truthy(NativeFunction(f))
    ensures Truthy(Literal.Number(n)) <==> n != 0
    ensures Truthy(Literal.String(s)) <==> s != ""
    ensures Truthy(Boolean(true)) && !Truthy(Boolean(false))
    ensures !Truthy(Literal.Null) && !Truthy(Literal.Undefined)
  {
  }

  /** Unlike JavaScript, an empty array and an empty object are falsy, and a non-empty one is
      truthy; for arrays this depends on the shared cell's contents at the time of the call. */
  lemma ContainersByEmptiness(a: SharedArray, props: seq<(string, Literal)>)
    ensures Truthy(Literal.Array(a)) <==> a.elements != []
    ensures Truthy(Literal.Object(props)) <==> props != []
  {
  }
}
