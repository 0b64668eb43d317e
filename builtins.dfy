/** The built-in values and methods of src/runtime/builtins.rs: `typeof`, the array methods
    (which act on the shared cell of an array value, so every alias sees a change), string
    `split`, `Object.keys`, the tables `Builtins::new` fills, `load`, the name lookup of
    `array_builtin`/`string_builtin`, and the call of the native functions they make. A panic of the source is an `Err` here, carrying the
    name the panic message gives. */
module Builtin {
  import opened Wrappers
  import opened Ast
  import ScopeStack

  datatype BuiltinError =
    | ArgumentCount(builtin: string)
    | NotAnArray(builtin: string)
    | NotAString(builtin: string)
    | NotAnObject(builtin: string)
    | DelimiterNotAString(builtin: string)
    | ElementNotAString
    | EmptyArray
    | NotFound(name: string)

  /** The array cell a value refers to, if any: what an array method reads or changes. */
  function CellOf(v: Literal): set<SharedArray>
  {
    if v.Array? then {v.cell} else {}
  }

  // ---------------------------------------------------------------------------------------
  // typeof

  function TypeTag(v: Literal): string
  {
    match v
    case String(_) => "string"
    case Number(_) => "number"
    case Boolean(_) => "boolean"
    case Null => "null"
    case Undefined => "undefined"
    case Object(_) => "object"
    case Array(_) => "array"
    case Function(_, _) => "function"
    case NativeFunction(_) => "native function"
  }

  /** `a` and `b` are built by the same constructor of `Literal`. */
  predicate SameKind(a: Literal, b: Literal)
  {
    && (a.String? <==> b.String?)
    && (a.Number? <==> b.Number?)
    && (a.Boolean? <==> b.Boolean?)
    && (a.Null? <==> b.Null?)
    && (a.Undefined? <==> b.Undefined?)
    && (a.Object? <==> b.Object?)
    && (a.Array? <==> b.Array?)
    && (a.Function? <==> b.Function?)
    && (a.NativeFunction? <==> b.NativeFunction?)
  }

  /** `intrinsics.typeof`: the tag of its one argument. */
  function Typeof(args: seq<Literal>): (r: Result<Literal, BuiltinError>)
    ensures r.Ok? <==> |args| == 1
    ensures r.Ok? ==> r.value.String? && r.value == Literal.String(TypeTag(args[0]))
    ensures r.Err? ==> r.error == ArgumentCount("typeof")
  {
    if |args| != 1 then Err(ArgumentCount("typeof")) else Ok(Literal.String(TypeTag(args[0])))
  }

  /** Two values get the same tag exactly when they are of the same kind. */
  lemma TypeTagIdentifiesKind(a: Literal, b: Literal)
    ensures TypeTag(a) == TypeTag(b) <==> SameKind(a, b)
  {
  }

  // ---------------------------------------------------------------------------------------
  // Array methods

  /** `array.length`: the number of elements in the cell; the arguments are ignored. */
  function ArrayLength(receiver: Literal, args: seq<Literal>): (r: Result<Literal, BuiltinError>)
    reads CellOf(receiver)
    ensures r.Ok? <==> receiver.Array?
    ensures r.Ok? ==> r.value == Literal.Number(|receiver.cell.elements|)
    ensures r.Err? ==> r.error == NotAnArray("array.length")
  {
    if receiver.Array? then Ok(Literal.Number(|receiver.cell.elements|))
    else Err(NotAnArray("array.length"))
  }

  /** `array.push`: append the one argument and answer the new length. */
  method Push(receiver: Literal, args: seq<Literal>) returns (r: Result<Literal, BuiltinError>)
    modifies CellOf(receiver)
    ensures !receiver.Array? ==> r == Err(NotAnArray("array.push"))
    ensures receiver.Array? && |args| != 1 ==>
      r == Err(ArgumentCount("array.push")) && receiver.cell.elements == old(receiver.cell.elements)
    ensures receiver.Array? && |args| == 1 ==>
      && receiver.cell.elements == old(receiver.cell.elements) + [args[0]]
      && r == Ok(Literal.Number(|receiver.cell.elements|))
  {
    if !receiver.Array? {
      return Err(NotAnArray("array.push"));
    }
    if |args| != 1 {
      return Err(ArgumentCount("array.push"));
    }
    var cell := receiver.cell;
    cell.elements := cell.elements + [args[0]];
    return Ok(Literal.Number(|cell.elements|));
  }

  /** `array.pop`: remove and answer the last element. Like the source, it insists on exactly
      one (unused) argument, and its first two messages name `array.push`. */
  method Pop(receiver: Literal, args: seq<Literal>) returns (r: Result<Literal, BuiltinError>)
    modifies CellOf(receiver)
    ensures !receiver.Array? ==> r == Err(NotAnArray("array.push"))
    ensures receiver.Array? && |args| != 1 ==>
      r == Err(ArgumentCount("array.push")) && receiver.cell.elements == old(receiver.cell.elements)
    ensures receiver.Array? && |args| == 1 && old(receiver.cell.elements) == [] ==>
      r == Err(EmptyArray) && receiver.cell.elements == []
    ensures receiver.Array? && |args| == 1 && old(receiver.cell.elements) != [] ==>
      && r.Ok?
      && old(receiver.cell.elements) == receiver.cell.elements + [r.value]
  {
    if !receiver.Array? {
      return Err(NotAnArray("array.push"));
    }
    if |args| != 1 {
      return Err(ArgumentCount("array.push"));
    }
    var cell := receiver.cell;
    if |cell.elements| == 0 {
      return Err(EmptyArray);
    }
    var last := cell.elements[|cell.elements| - 1];
    cell.elements := cell.elements[..|cell.elements| - 1];
    return Ok(last);
  }

  /** `xs` back to front. */
  function Reversed<T>(xs: seq<T>): (r: seq<T>)
    ensures |r| == |xs|
    ensures forall i :: 0 <= i < |xs| ==> r[i] == xs[|xs| - 1 - i]
  {
    if |xs| == 0 then [] else Reversed(xs[1..]) + [xs[0]]
  }

  /** Reversing twice restores the original order. */
  lemma {:induction false} ReverseTwice<T>(xs: seq<T>)
    ensures Reversed(Reversed(xs)) == xs
  {
    var twice := Reversed(Reversed(xs));
    forall i | 0 <= i < |xs|
      ensures twice[i] == xs[i]
    {
      assert twice[i] == Reversed(xs)[|xs| - 1 - i];
    }
  }

  /** `array.reverse`: reverse the cell in place and answer the same array value. */
  method Reverse(receiver: Literal, args: seq<Literal>) returns (r: Result<Literal, BuiltinError>)
    modifies CellOf(receiver)
    ensures !receiver.Array? ==> r == Err(NotAnArray("Array.reverse()"))
    ensures receiver.Array? ==>
      r == Ok(receiver) && receiver.cell.elements == Reversed(old(receiver.cell.elements))
  {
    if !receiver.Array? {
      return Err(NotAnArray("Array.reverse()"));
    }
    var cell := receiver.cell;
    cell.elements := Reversed(cell.elements);
    return Ok(receiver);
  }

  // ---------------------------------------------------------------------------------------
  // join

  /** The parts with `delim` between each neighbouring pair. */
  function Interleave(parts: seq<string>, delim: string): string
  {
    if |parts| == 0 then ""
    else if |parts| == 1 then parts[0]
    else parts[0] + delim + Interleave(parts[1..], delim)
  }

  /** Adding a part at the end adds the delimiter and the part, as the loop of `join` does. */
  lemma {:induction false} InterleaveSnoc(parts: seq<string>, part: string, delim: string)
    requires |parts| > 0
    ensures Interleave(parts + [part], delim) == Interleave(parts, delim) + delim + part
    decreases |parts|
  {
    if |parts| > 1 {
      assert (parts + [part])[1..] == parts[1..] + [part];
      InterleaveSnoc(parts[1..], part, delim);
    } else {
      assert (parts + [part])[1..] == [part];
    }
  }

  /** A part in front of at least one more adds the part and the delimiter. */
  lemma InterleaveCons(part: string, parts: seq<string>, delim: string)
    requires |parts| > 0
    ensures Interleave([part] + parts, delim) == part + delim + Interleave(parts, delim)
  {
    assert ([part] + parts)[1..] == parts;
  }

  predicate AllStrings(items: seq<Literal>)
  {
    forall i :: 0 <= i < |items| ==> items[i].String?
  }

  /** The text of each `String` element. */
  function Texts(items: seq<Literal>): (r: seq<string>)
    requires AllStrings(items)
    ensures |r| == |items|
    ensures forall i :: 0 <= i < |items| ==> r[i] == items[i].s
  {
    if |items| == 0 then [] else [items[0].s] + Texts(items[1..])
  }

  /** Each string as a `String` value. */
  function Strings(parts: seq<string>): (r: seq<Literal>)
    ensures |r| == |parts|
    ensures forall i :: 0 <= i < |parts| ==> r[i] == Literal.String(parts[i])
  {
    if |parts| == 0 then [] else [Literal.String(parts[0])] + Strings(parts[1..])
  }

  /** Only `String` values come out of `Strings`, and their texts are the parts. */
  lemma StringsAreStrings(parts: seq<string>)
    ensures AllStrings(Strings(parts))
    ensures Texts(Strings(parts)) == parts
  {
  }

  /** The delimiter of `join` and `split`: `default` without arguments, the one `String`
      argument otherwise. */
  function Delimiter(args: seq<Literal>, default: string, builtin: string): (r: Result<string, BuiltinError>)
    ensures |args| == 0 ==> r == Ok(default)
    ensures |args| == 1 && args[0].String? ==> r == Ok(args[0].s)
    ensures |args| == 1 && !args[0].String? ==> r == Err(DelimiterNotAString(builtin))
    ensures |args| > 1 ==> r == Err(ArgumentCount(builtin))
  {
    if |args| == 0 then Ok(default)
    else if |args| > 1 then Err(ArgumentCount(builtin))
    else if args[0].String? then Ok(args[0].s)
    else Err(DelimiterNotAString(builtin))
  }

  /** What `join` answers for the elements `items`. */
  function JoinOf(items: seq<Literal>, args: seq<Literal>): (r: Result<Literal, BuiltinError>)
    ensures r.Ok? <==> Delimiter(args, ",", "array.join").Ok? && AllStrings(items)
    ensures r.Ok? ==>
      r.value == Literal.String(Interleave(Texts(items), Delimiter(args, ",", "array.join").value))
    ensures Delimiter(args, ",", "array.join").Ok? && !AllStrings(items) ==> r == Err(ElementNotAString)
  {
    var delim :- Delimiter(args, ",", "array.join");
    if AllStrings(items) then Ok(Literal.String(Interleave(Texts(items), delim)))
    else Err(ElementNotAString)
  }

  /** An empty array joins to the empty string, whatever the delimiter. */
  lemma JoinEmpty(args: seq<Literal>)
    requires Delimiter(args, ",", "array.join").Ok?
    ensures JoinOf([], args) == Ok(Literal.String(""))
  {
    assert Texts([]) == [];
  }

  /** `array.join`: the elements, all `String`s, with the delimiter between them. */
  method Join(receiver: Literal, args: seq<Literal>) returns (r: Result<Literal, BuiltinError>)
    ensures !receiver.Array? ==> r == Err(NotAnArray("array.join"))
    ensures receiver.Array? ==> r == JoinOf(receiver.cell.elements, args)
  {
    if !receiver.Array? {
      return Err(NotAnArray("array.join"));
    }
    var delim :- Delimiter(args, ",", "array.join");
    var items := receiver.cell.elements;
    var text := "";
    var i := 0;
    while i < |items|
      invariant 0 <= i <= |items|
      invariant AllStrings(items[..i])
      invariant text == Interleave(Texts(items[..i]), delim)
    {
      if i > 0 {
        text := text + delim;
      }
      if !items[i].String? {
        return Err(ElementNotAString);
      }
      assert items[..i + 1] == items[..i] + [items[i]];
      assert Texts(items[..i + 1]) == Texts(items[..i]) + [items[i].s];
      if i > 0 {
        InterleaveSnoc(Texts(items[..i]), items[i].s, delim);
      }
      text := text + items[i].s;
      i := i + 1;
    }
    assert items[..i] == items;
    return Ok(Literal.String(text));
  }

  // ---------------------------------------------------------------------------------------
  // split

  /** `delim` occurs in `s` at index `i`. */
  predicate OccursAt(s: string, delim: string, i: nat)
  {
    i + |delim| <= |s| && s[i..i + |delim|] == delim
  }

  /** Rust's `str::split` with a non-empty delimiter, scanning from `i` with the current piece
      starting at `start`: each leftmost occurrence of `delim` ends a piece, and the scan
      resumes after it. */
  function SplitFrom(s: string, delim: string, start: nat, i: nat): (r: seq<string>)
    requires |delim| > 0 && start <= i <= |s|
    ensures |r| > 0
    decreases |s| - i
  {
    if i + |delim| > |s| then [s[start..]]
    else if OccursAt(s, delim, i) then [s[start..i]] + SplitFrom(s, delim, i + |delim|, i + |delim|)
    else SplitFrom(s, delim, start, i + 1)
  }

  /** Each character on its own. */
  function Characters(s: string): (r: seq<string>)
    ensures |r| == |s|
    ensures forall i :: 0 <= i < |s| ==> r[i] == [s[i]]
  {
    if |s| == 0 then [] else [[s[0]]] + Characters(s[1..])
  }

  /** The pieces of `s` between the occurrences of `delim`. Rust's `split` with the empty
      delimiter matches at every character boundary, so the pieces are an empty string, each
      character, and another empty string. */
  function SplitOn(s: string, delim: string): (r: seq<string>)
    ensures |r| > 0
  {
    if |delim| == 0 then [""] + (Characters(s) + [""]) else SplitFrom(s, delim, 0, 0)
  }

  /** The piece before an occurrence, the delimiter, and the join of what follows it make up
      the rest of the string. */
  lemma PieceThenRest(s: string, delim: string, start: nat, i: nat, rest: seq<string>)
    requires start <= i && OccursAt(s, delim, i) && |rest| > 0
    requires Interleave(rest, delim) == s[i + |delim|..]
    ensures Interleave([s[start..i]] + rest, delim) == s[start..]
  {
    var next := i + |delim|;
    var piece := s[start..i];
    calc {
      Interleave([piece] + rest, delim);
    == { InterleaveCons(piece, rest, delim); }
      piece + delim + Interleave(rest, delim);
    == { assert delim == s[i..next]; }
      piece + s[i..next] + s[next..];
    == { SlicesJoin(s, start, i, next); }
      s[start..];
    }
  }

  /** Three adjacent slices of `s` make up the slice from the first start to the end. */
  lemma SlicesJoin(s: string, a: nat, b: nat, c: nat)
    requires a <= b <= c <= |s|
    ensures s[a..] == s[a..b] + s[b..c] + s[c..]
  {
    assert s[a..] == s[a..b] + s[b..];
    assert s[b..] == s[b..c] + s[c..];
  }

  lemma {:induction false} SplitFromRoundTrip(s: string, delim: string, start: nat, i: nat)
    requires |delim| > 0 && start <= i <= |s|
    ensures Interleave(SplitFrom(s, delim, start, i), delim) == s[start..]
    decreases |s| - i
  {
    if i + |delim| > |s| {
    } else if OccursAt(s, delim, i) {
      var next := i + |delim|;
      SplitFromRoundTrip(s, delim, next, next);
      PieceThenRest(s, delim, start, i, SplitFrom(s, delim, next, next));
    } else {
      SplitFromRoundTrip(s, delim, start, i + 1);
    }
  }

  lemma {:induction false} CharactersRoundTrip(s: string)
    ensures Interleave(Characters(s) + [""], "") == s
    decreases |s|
  {
    if |s| == 0 {
      assert Characters(s) + [""] == [""];
    } else {
      CharactersRoundTrip(s[1..]);
      assert Characters(s) + [""] == [[s[0]]] + (Characters(s[1..]) + [""]);
      InterleaveCons([s[0]], Characters(s[1..]) + [""], "");
      assert [s[0]] + s[1..] == s;
    }
  }

  /** Joining the pieces of a split with the same delimiter gives back the string. */
  lemma SplitJoinRoundTrip(s: string, delim: string)
    ensures Interleave(SplitOn(s, delim), delim) == s
  {
    if |delim| == 0 {
      CharactersRoundTrip(s);
      InterleaveCons("", Characters(s) + [""], "");
    } else {
      SplitFromRoundTrip(s, delim, 0, 0);
    }
  }

  /** What `split` puts in its new array. */
  function SplitOf(receiver: Literal, args: seq<Literal>): (r: Result<seq<Literal>, BuiltinError>)
    ensures r.Ok? <==> receiver.String? && Delimiter(args, " ", "string.split").Ok?
    ensures r.Ok? ==> r.value == Strings(SplitOn(receiver.s, Delimiter(args, " ", "string.split").value))
    ensures !receiver.String? ==> r == Err(NotAString("string.split"))
  {
    if !receiver.String? then Err(NotAString("string.split"))
    else
      var delim :- Delimiter(args, " ", "string.split");
      Ok(Strings(SplitOn(receiver.s, delim)))
  }

  /** `split` yields only `String`s, and `join` with the same (explicit) delimiter gives the
      original string back. */
  lemma SplitThenJoin(s: string, delim: string)
    ensures SplitOf(Literal.String(s), [Literal.String(delim)]).Ok?
    ensures AllStrings(SplitOf(Literal.String(s), [Literal.String(delim)]).value)
    ensures JoinOf(SplitOf(Literal.String(s), [Literal.String(delim)]).value, [Literal.String(delim)])
      == Ok(Literal.String(s))
  {
    StringsAreStrings(SplitOn(s, delim));
    SplitJoinRoundTrip(s, delim);
  }

  /** `string.split`: a new array of the pieces. */
  method Split(receiver: Literal, args: seq<Literal>) returns (r: Result<Literal, BuiltinError>)
    ensures r.Ok? <==> SplitOf(receiver, args).Ok?
    ensures r.Err? ==> r.error == SplitOf(receiver, args).error
    ensures r.Ok? ==> r.value.Array? && fresh(r.value.cell) && r.value.cell.elements == SplitOf(receiver, args).value
  {
    var pieces :- SplitOf(receiver, args);
    var cell := new SharedArray(pieces);
    return Ok(Literal.Array(cell));
  }

  // ---------------------------------------------------------------------------------------
  // Object.keys

  /** The property names, in order, as `String`s. */
  function KeysOf(properties: seq<(string, Literal)>): (r: seq<Literal>)
    ensures |r| == |properties|
    ensures forall i :: 0 <= i < |properties| ==> r[i] == Literal.String(properties[i].0)
  {
    if |properties| == 0 then [] else [Literal.String(properties[0].0)] + KeysOf(properties[1..])
  }

  /** `Object.keys`: a new array of the names of its one argument's properties. */
  method ObjectKeys(args: seq<Literal>) returns (r: Result<Literal, BuiltinError>)
    ensures |args| != 1 ==> r == Err(ArgumentCount("object.keys"))
    ensures |args| == 1 && !args[0].Object? ==> r == Err(NotAnObject("object.keys"))
    ensures |args| == 1 && args[0].Object? ==>
      r.Ok? && r.value.Array? && fresh(r.value.cell) && r.value.cell.elements == KeysOf(args[0].properties)
  {
    if |args| != 1 {
      return Err(ArgumentCount("object.keys"));
    }
    if !args[0].Object? {
      return Err(NotAnObject("object.keys"));
    }
    var cell := new SharedArray(KeysOf(args[0].properties));
    return Ok(Literal.Array(cell));
  }

  // ---------------------------------------------------------------------------------------
  // The tables

  /** The operations the array and string tables name. */
  datatype ArrayMethod = Length | PushMethod | PopMethod | JoinMethod | ReverseMethod
  datatype StringMethod = SplitMethod

  /** The name under which the array table holds each operation. */
  function MethodName(m: ArrayMethod): string
  {
    match m
    case Length => "length"
    case PushMethod => "push"
    case PopMethod => "pop"
    case JoinMethod => "join"
    case ReverseMethod => "reverse"
  }

  /** What a call of array operation `m` on `receiver` with `args` answers and does to the
      receiver's cell: the contract of the member that implements it. */
  twostate predicate ArrayCalled(m: ArrayMethod, receiver: Literal, args: seq<Literal>, new r: Result<Literal, BuiltinError>)
    reads CellOf(receiver)
  {
    match m
    case Length =>
      r == ArrayLength(receiver, args) && unchanged(CellOf(receiver))
    case JoinMethod =>
      && unchanged(CellOf(receiver))
      && (!receiver.Array? ==> r == Err(NotAnArray("array.join")))
      && (receiver.Array? ==> r == JoinOf(receiver.cell.elements, args))
    case PushMethod =>
      && (!receiver.Array? ==> r == Err(NotAnArray("array.push")))
      && (receiver.Array? && |args| != 1 ==>
            r == Err(ArgumentCount("array.push")) && receiver.cell.elements == old(receiver.cell.elements))
      && (receiver.Array? && |args| == 1 ==>
            && receiver.cell.elements == old(receiver.cell.elements) + [args[0]]
            && r == Ok(Literal.Number(|receiver.cell.elements|)))
    case PopMethod =>
      && (!receiver.Array? ==> r == Err(NotAnArray("array.push")))
      && (receiver.Array? && |args| != 1 ==>
            r == Err(ArgumentCount("array.push")) && receiver.cell.elements == old(receiver.cell.elements))
      && (receiver.Array? && |args| == 1 && old(receiver.cell.elements) == [] ==>
            r == Err(EmptyArray) && receiver.cell.elements == [])
      && (receiver.Array? && |args| == 1 && old(receiver.cell.elements) != [] ==>
            r.Ok? && old(receiver.cell.elements) == receiver.cell.elements + [r.value])
    case ReverseMethod =>
      && (!receiver.Array? ==> r == Err(NotAnArray("Array.reverse()")))
      && (receiver.Array? ==>
            r == Ok(receiver) && receiver.cell.elements == Reversed(old(receiver.cell.elements)))
  }

  /** The call inside the native function `array_builtin` makes: the operation the table
      holds, applied to the captured receiver and the call's arguments. */
  method CallArrayMethod(m: ArrayMethod, receiver: Literal, args: seq<Literal>) returns (r: Result<Literal, BuiltinError>)
    modifies CellOf(receiver)
    ensures ArrayCalled(m, receiver, args, r)
  {
    match m
    case Length =>
      r := ArrayLength(receiver, args);
    case PushMethod =>
      r := Push(receiver, args);
    case PopMethod =>
      r := Pop(receiver, args);
    case JoinMethod =>
      r := Join(receiver, args);
    case ReverseMethod =>
      r := Reverse(receiver, args);
  }

  /** What a call of string operation `m` on `receiver` with `args` answers. */
  twostate predicate StringCalled(m: StringMethod, receiver: Literal, args: seq<Literal>, new r: Result<Literal, BuiltinError>)
    reads if r.Ok? then CellOf(r.value) else {}
  {
    match m
    case SplitMethod =>
      && (r.Ok? <==> SplitOf(receiver, args).Ok?)
      && (r.Err? ==> r.error == SplitOf(receiver, args).error)
      && (r.Ok? ==> r.value.Array? && fresh(r.value.cell) && r.value.cell.elements == SplitOf(receiver, args).value)
  }

  /** The call inside the native function `string_builtin` makes. */
  method CallStringMethod(m: StringMethod, receiver: Literal, args: seq<Literal>) returns (r: Result<Literal, BuiltinError>)
    ensures StringCalled(m, receiver, args, r)
  {
    match m
    case SplitMethod =>
      r := Split(receiver, args);
  }

  /** The natives of the global objects that this model covers, by the name their `NativeFn`
      carries. `console.log`, `intrinsics.dump`, `Math.sqrt` and `Math.max` are not part of it. */
  datatype GlobalMethod = TypeofMethod | KeysMethod

  function GlobalMethodNamed(name: string): (r: Option<GlobalMethod>)
    ensures r == Some(TypeofMethod) <==> name == "intrinsics.typeof"
    ensures r == Some(KeysMethod) <==> name == "Object.keys"
  {
    if name == "intrinsics.typeof" then Some(TypeofMethod)
    else if name == "Object.keys" then Some(KeysMethod)
    else None
  }

  /** A call of a global native: the function `Builtins::new` stored under its name. */
  method CallGlobal(m: GlobalMethod, args: seq<Literal>) returns (r: Result<Literal, BuiltinError>)
    ensures m == TypeofMethod ==> r == Typeof(args)
    ensures m == KeysMethod && |args| != 1 ==> r == Err(ArgumentCount("object.keys"))
    ensures m == KeysMethod && |args| == 1 && !args[0].Object? ==> r == Err(NotAnObject("object.keys"))
    ensures m == KeysMethod && |args| == 1 && args[0].Object? ==>
      r.Ok? && r.value.Array? && fresh(r.value.cell) && r.value.cell.elements == KeysOf(args[0].properties)
  {
    match m
    case TypeofMethod =>
      r := Typeof(args);
    case KeysMethod =>
      r := ObjectKeys(args);
  }

  /** A global object's native function, named as the source names it. */
  function Native(name: string): Literal
  {
    NativeFunction(NativeFn(name, None))
  }

  class Builtins {
    /** The global objects `load` binds. */
    const funcs: map<string, Literal>
    /** The methods an array value has, by name. */
    const arrayFuncs: map<string, ArrayMethod>
    /** The methods a string value has, by name. */
    const stringFuncs: map<string, StringMethod>

    /** The tables as `new` fills them. */
    predicate Valid()
    {
      && funcs.Keys == {"console", "intrinsics", "Object", "Math"}
      && funcs["console"] == Literal.Object([("log", Native("console.log"))])
      && funcs["intrinsics"] == Literal.Object([("dump", Native("intrinsics.dump")), ("typeof", Native("intrinsics.typeof"))])
      && funcs["Object"] == Literal.Object([("keys", Native("Object.keys"))])
      && funcs["Math"] == Literal.Object([("sqrt", Native("Math.sqrt")), ("max", Native("Math.max"))])
      && arrayFuncs == map["length" := Length, "push" := PushMethod, "pop" := PopMethod,
                           "join" := JoinMethod, "reverse" := ReverseMethod]
      && stringFuncs == map["split" := SplitMethod]
    }

    /** `Builtins::new`. */
    constructor ()
      ensures Valid()
    {
      var globals: map<string, Literal> := map[];
      globals := globals["console" := Literal.Object([("log", Native("console.log"))])];
      globals := globals["intrinsics" := Literal.Object([("dump", Native("intrinsics.dump")), ("typeof", Native("intrinsics.typeof"))])];
      globals := globals["Object" := Literal.Object([("keys", Native("Object.keys"))])];
      globals := globals["Math" := Literal.Object([("sqrt", Native("Math.sqrt")), ("max", Native("Math.max"))])];
      var arrays: map<string, ArrayMethod> := map[];
      arrays := arrays["length" := Length];
      arrays := arrays["push" := PushMethod];
      arrays := arrays["pop" := PopMethod];
      arrays := arrays["join" := JoinMethod];
      arrays := arrays["reverse" := ReverseMethod];
      var strings: map<string, StringMethod> := map[];
      strings := strings["split" := SplitMethod];
      funcs := globals;
      arrayFuncs := arrays;
      stringFuncs := strings;
    }

    /** `load`: bind every global object in the innermost frame of `scope`. On a scope with no
        frame the first `set` fails. */
    method Load(scope: ScopeStack.Scope) returns (r: Outcome<ScopeStack.ScopeError>)
      modifies scope
      ensures |old(scope.frames)| == 0 ==>
        scope.frames == old(scope.frames) && (r.Fail? <==> funcs != map[])
      ensures |old(scope.frames)| > 0 ==>
        && r == Pass
        && |scope.frames| == |old(scope.frames)|
        && scope.frames[..|scope.frames| - 1] == old(scope.frames)[..|scope.frames| - 1]
        && scope.frames[|scope.frames| - 1] == old(scope.frames)[|scope.frames| - 1] + funcs
      ensures |old(scope.frames)| > 0 ==> forall name :: name in funcs ==> scope.Get(name) == Some(funcs[name])
    {
      var remaining := funcs.Keys;
      ghost var n := |scope.frames|;
      while remaining != {}
        invariant remaining <= funcs.Keys
        invariant n == 0 ==> scope.frames == old(scope.frames) && remaining == funcs.Keys
        invariant n > 0 ==>
          && |scope.frames| == n
          && scope.frames[..n - 1] == old(scope.frames)[..n - 1]
          && scope.frames[n - 1] == old(scope.frames)[n - 1] + Restrict(funcs, funcs.Keys - remaining)
        decreases remaining
      {
        var name :| name in remaining;
        ghost var before := scope.frames;
        var outcome := scope.Set(name, funcs[name]);
        if outcome.Fail? {
          return outcome;
        }
        assert scope.frames[..n - 1] == before[..n - 1];
        assert Restrict(funcs, funcs.Keys - (remaining - {name}))
          == Restrict(funcs, funcs.Keys - remaining)[name := funcs[name]];
        remaining := remaining - {name};
      }
      assert Restrict(funcs, funcs.Keys - remaining) == funcs;
      if n > 0 {
        forall name | name in funcs
          ensures scope.Get(name) == Some(funcs[name])
        {
          assert ScopeStack.InnermostIn(scope.frames, name, n - 1);
        }
      }
      return Pass;
    }

    /** `array_builtin`: the native function for the array method `name`, capturing the
        receiver. */
    function ArrayBuiltin(receiver: Literal, name: string): (r: Result<Literal, BuiltinError>)
      ensures r.Ok? <==> name in arrayFuncs
      ensures r.Ok? ==> r.value == NativeFunction(NativeFn("Array." + name, Some(receiver)))
      ensures r.Err? ==> r.error == NotFound("Array." + name)
    {
      if name in arrayFuncs then Ok(NativeFunction(NativeFn("Array." + name, Some(receiver))))
      else Err(NotFound("Array." + name))
    }

    /** `string_builtin`: the native function for the string method `name`, capturing the
        receiver. */
    function StringBuiltin(receiver: Literal, name: string): (r: Result<Literal, BuiltinError>)
      ensures r.Ok? <==> name in stringFuncs
      ensures r.Ok? ==> r.value == NativeFunction(NativeFn("String." + name, Some(receiver)))
      ensures r.Err? ==> r.error == NotFound("String." + name)
    {
      if name in stringFuncs then Ok(NativeFunction(NativeFn("String." + name, Some(receiver))))
      else Err(NotFound("String." + name))
    }

    /** `array_builtin(receiver, name)` followed by a call of the native function it makes:
        the lookup fails, or the operation the table holds under `name` runs on the captured
        receiver. */
    method CallArrayBuiltin(receiver: Literal, name: string, args: seq<Literal>) returns (r: Result<Literal, BuiltinError>)
      modifies CellOf(receiver)
      ensures name !in arrayFuncs ==> r == Err(NotFound("Array." + name)) && unchanged(CellOf(receiver))
      ensures name in arrayFuncs ==> ArrayCalled(arrayFuncs[name], receiver, args, r)
    {
      var f := ArrayBuiltin(receiver, name);
      if f.Err? {
        return Err(f.error);
      }
      r := CallArrayMethod(arrayFuncs[name], f.value.native.receiver.value, args);
    }

    /** `string_builtin(receiver, name)` followed by a call of the native function it makes. */
    method CallStringBuiltin(receiver: Literal, name: string, args: seq<Literal>) returns (r: Result<Literal, BuiltinError>)
      ensures name !in stringFuncs ==> r == Err(NotFound("String." + name))
      ensures name in stringFuncs ==> StringCalled(stringFuncs[name], receiver, args, r)
    {
      var f := StringBuiltin(receiver, name);
      if f.Err? {
        return Err(f.error);
      }
      r := CallStringMethod(stringFuncs[name], f.value.native.receiver.value, args);
    }
  }

  /** `m` cut down to the keys in `keys`. */
  function Restrict<K, V>(m: map<K, V>, keys: set<K>): map<K, V>
  {
    map k | k in m && k in keys :: m[k]
  }

  /** The array table holds each operation under its own name and nothing else, so the
      native function `array_builtin` makes for `name` is named after the operation it runs. */
  lemma ArrayTableByName(b: Builtins, receiver: Literal, name: string, m: ArrayMethod)
    requires b.Valid()
    ensures MethodName(m) in b.arrayFuncs && b.arrayFuncs[MethodName(m)] == m
    ensures name in b.arrayFuncs ==> MethodName(b.arrayFuncs[name]) == name
    ensures name in b.arrayFuncs ==>
      b.ArrayBuiltin(receiver, name) == Ok(NativeFunction(NativeFn("Array." + MethodName(b.arrayFuncs[name]), Some(receiver))))
    ensures b.stringFuncs == map["split" := SplitMethod]
  {
  }

  /** The `typeof` of `intrinsics` and the `keys` of `Object` are the natives `CallGlobal`
      runs as `Typeof` and `ObjectKeys`. */
  lemma GlobalNatives(b: Builtins)
    requires b.Valid()
    ensures b.funcs["intrinsics"].Object? && |b.funcs["intrinsics"].properties| == 2
    ensures b.funcs["intrinsics"].properties[1].0 == "typeof"
    ensures b.funcs["intrinsics"].properties[1].1.NativeFunction?
    ensures GlobalMethodNamed(b.funcs["intrinsics"].properties[1].1.native.name) == Some(TypeofMethod)
    ensures b.funcs["Object"].Object? && |b.funcs["Object"].properties| == 1
    ensures b.funcs["Object"].properties[0].0 == "keys"
    ensures b.funcs["Object"].properties[0].1.NativeFunction?
    ensures GlobalMethodNamed(b.funcs["Object"].properties[0].1.native.name) == Some(KeysMethod)
  {
  }

  /** Arrays answer exactly five method names and strings exactly one. */
  lemma MethodNames(b: Builtins, receiver: Literal, name: string)
    requires b.Valid()
    ensures b.ArrayBuiltin(receiver, name).Ok? <==> name in {"length", "push", "pop", "join", "reverse"}
    ensures b.StringBuiltin(receiver, name).Ok? <==> name == "split"
  {
  }
}
