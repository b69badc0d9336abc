/** The JSON patch engine (RFC 6902) on value trees. */
module Patch {
  import opened Json
  import opened Wrappers
  import opened Pointer

  // ---------------------------------------------------------------------------------------------
  // Locations
  // ---------------------------------------------------------------------------------------------

  function Child(v: Value, token: string): Option<Value> {
    match v
    case Object(fields) => Get(fields, token)
    case Array(items) =>
      var i := ArrayIndex(token);
      if i.Some? && i.value < |items| then Some(items[i.value]) else None
    case _ => None
  }

  function SetChild(v: Value, token: string, child: Value): (r: Value)
    requires Child(v, token).Some?
    ensures r.Object? == v.Object? && r.Array? == v.Array?
    ensures Child(r, token) == Some(child)
  {
    match v
    case Object(fields) => Object(fields[token := child])
    case Array(items) => Array(items[ArrayIndex(token).value := child])
  }

  function Lookup(v: Value, tokens: seq<string>): Option<Value> {
    if tokens == [] then Some(v)
    else
      var child := Child(v, tokens[0]);
      if child.Some? then Lookup(child.value, tokens[1..]) else None
  }

  /** Put `x` in front of position `i`. */
  function InsertAt(items: seq<Value>, i: nat, x: Value): seq<Value>
    requires i <= |items|
  {
    items[..i] + [x] + items[i..]
  }

  function DeleteAt(items: seq<Value>, i: nat): seq<Value>
    requires i < |items|
  {
    items[..i] + items[i + 1..]
  }

  /** Where a token points when something is added to an array: one past the end for "-". */
  function InsertPosition(items: seq<Value>, token: string): Option<nat> {
    if token == "-" then Some(|items|)
    else
      var i := ArrayIndex(token);
      if i.Some? && i.value <= |items| then i else None
  }

  function AddChild(v: Value, token: string, x: Value): Option<Value> {
    match v
    case Object(fields) => Some(Object(fields[token := x]))
    case Array(items) =>
      var i := InsertPosition(items, token);
      if i.Some? then Some(Array(InsertAt(items, i.value, x))) else None
    case _ => None
  }

  function RemoveChild(v: Value, token: string): Option<Value> {
    if Child(v, token).None? then None
    else match v
      case Object(fields) => Some(Object(fields - {token}))
      case Array(items) => Some(Array(DeleteAt(items, ArrayIndex(token).value)))
  }

  function AddAt(v: Value, tokens: seq<string>, x: Value): Option<Value> {
    if tokens == [] then Some(x)
    else if |tokens| == 1 then AddChild(v, tokens[0], x)
    else
      var child := Child(v, tokens[0]);
      if child.None? then None
      else
        var inner := AddAt(child.value, tokens[1..], x);
        if inner.Some? then Some(SetChild(v, tokens[0], inner.value)) else None
  }

  /** Taking the whole document leaves null behind. */
  function RemoveAt(v: Value, tokens: seq<string>): Option<Value> {
    if tokens == [] then Some(Null)
    else if |tokens| == 1 then RemoveChild(v, tokens[0])
    else
      var child := Child(v, tokens[0]);
      if child.None? then None
      else
        var inner := RemoveAt(child.value, tokens[1..]);
        if inner.Some? then Some(SetChild(v, tokens[0], inner.value)) else None
  }

  // ---------------------------------------------------------------------------------------------
  // Operations
  // ---------------------------------------------------------------------------------------------

  function Text(v: Option<Value>): Option<string> {
    if v.Some? && v.value.Str? then Some(v.value.s) else None
  }

  function GetPath(v: Value, path: string): Option<Value> {
    var tokens := Tokens(path);
    if tokens.Some? then Lookup(v, tokens.value) else None
  }

  function AddPath(v: Value, path: string, x: Value): Option<Value> {
    var tokens := Tokens(path);
    if tokens.Some? then AddAt(v, tokens.value, x) else None
  }

  function RemovePath(v: Value, path: string): Option<Value> {
    var tokens := Tokens(path);
    if tokens.Some? then RemoveAt(v, tokens.value) else None
  }

  /** The document after one operation, or none when the operation is malformed or cannot apply. */
  function Operate(v: Value, operation: Value): Option<Value> {
    if !operation.Object? then None
    else
      var o := operation.fields;
      var op, path, value, from := Text(Get(o, "op")), Text(Get(o, "path")), Get(o, "value"), Text(Get(o, "from"));
      if op.None? || path.None? then None
      else if op.value == "add" then
        if value.None? then None else AddPath(v, path.value, value.value)
      else if op.value == "remove" then RemovePath(v, path.value)
      else if op.value == "replace" then
        var removed := RemovePath(v, path.value);
        if GetPath(v, path.value).None? || removed.None? || value.None? then None
        else AddPath(removed.value, path.value, value.value)
      else if op.value == "move" then
        if from.None? || from.value + "/" <= path.value then None
        else
          var moved, removed := GetPath(v, from.value), RemovePath(v, from.value);
          if moved.None? || removed.None? then None else AddPath(removed.value, path.value, moved.value)
      else if op.value == "copy" then
        if from.None? || GetPath(v, from.value).None? then None
        else AddPath(v, path.value, GetPath(v, from.value).value)
      else if op.value == "test" then
        if value.Some? && GetPath(v, path.value) == value then Some(v) else None
      else None
  }

  function OperateBounded(lib: Library, v: Value, operation: Value): Result<Value, Error> {
    var next := Operate(v, operation);
    if next.None? then Err(InvalidPatch)
    else if lib.size(next.value) > MAX_EVENT_BYTES then Err(TooLarge)
    else Ok(next.value)
  }

  /** All operations in order, each on the result of the one before. */
  function Patched(lib: Library, v: Value, patch: seq<Value>): Result<Value, Error> {
    if patch == [] then Ok(v)
    else
      var before := Patched(lib, v, patch[..|patch| - 1]);
      if before.Err? then before else OperateBounded(lib, before.value, patch[|patch| - 1])
  }

  function PatchResult(lib: Library, v: Value, patch: seq<Value>): Result<Value, Error> {
    if |patch| > MAX_ITEMS then Err(InvalidPatch) else Patched(lib, v, patch)
  }

  lemma {:induction false} PatchedFails(lib: Library, v: Value, patch: seq<Value>, n: nat)
    requires n <= |patch| && Patched(lib, v, patch[..n]).Err?
    ensures Patched(lib, v, patch) == Patched(lib, v, patch[..n])
    decreases |patch|
  {
    if n < |patch| {
      assert patch[..|patch| - 1][..n] == patch[..n];
      PatchedFails(lib, v, patch[..|patch| - 1], n);
    } else {
      assert patch[..n] == patch;
    }
  }

  /** Walk down the tokens of a pointer. */
  method GetValue(target: Value, path: string) returns (r: Option<Value>)
    ensures r == GetPath(target, path)
  {
    var tokens := ParsePointer(path);
    if tokens.None? {
      return None;
    }
    var current := target;
    for i := 0 to |tokens.value|
      invariant Lookup(target, tokens.value) == Lookup(current, tokens.value[i..])
    {
      assert tokens.value[i..][1..] == tokens.value[i + 1..];
      var child := Child(current, tokens.value[i]);
      if child.None? {
        return None;
      }
      current := child.value;
    }
    return Some(current);
  }

  /** Patch a copy; the target takes its place only when every operation has succeeded. */
  method ApplyPatch(lib: Library, target: Value, patch: seq<Value>) returns (target': Value, r: Result<(), Error>)
    ensures r.Err? ==> target' == target
    ensures PatchResult(lib, target, patch) == if r.Ok? then Ok(target') else Err(r.error)
  {
    target' := target;
    if |patch| > MAX_ITEMS {
      return target', Err(InvalidPatch);
    }
    var next := target;
    for i := 0 to |patch|
      invariant Patched(lib, target, patch[..i]) == Ok(next)
    {
      assert patch[..i + 1][..i] == patch[..i];
      var operated := OperateBounded(lib, next, patch[i]);
      if operated.Err? {
        PatchedFails(lib, target, patch, i + 1);
        return target', Err(operated.error);
      }
      next := operated.value;
    }
    assert patch[..|patch|] == patch;
    return next, Ok(());
  }

  // ---------------------------------------------------------------------------------------------
  // Laws of add, remove and replace (sections 4.1 to 4.3)
  // ---------------------------------------------------------------------------------------------

  /** In-place substitution: the reference meaning of replace. */
  function Substitute(v: Value, tokens: seq<string>, x: Value): Value
    requires Lookup(v, tokens).Some?
  {
    if tokens == [] then x
    else SetChild(v, tokens[0], Substitute(Child(v, tokens[0]).value, tokens[1..], x))
  }

  lemma {:induction false} SetTwice(v: Value, token: string, a: Value, b: Value)
    requires Child(v, token).Some?
    ensures SetChild(SetChild(v, token, a), token, b) == SetChild(v, token, b)
  {
  }

  lemma {:induction false} InsertDeleted(items: seq<Value>, i: nat, x: Value)
    requires i < |items|
    ensures |DeleteAt(items, i)| == |items| - 1 && InsertAt(DeleteAt(items, i), i, x) == items[i := x]
  {
  }

  lemma {:induction false} RemoveAddChild(v: Value, token: string, x: Value)
    requires Child(v, token).Some?
    ensures RemoveChild(v, token).Some?
    ensures AddChild(RemoveChild(v, token).value, token, x) == Some(SetChild(v, token, x))
  {
    match v {
      case Object(fields) =>
        assert (fields - {token})[token := x] == fields[token := x];
      case Array(items) =>
        assert token != "-";
        InsertDeleted(items, ArrayIndex(token).value, x);
      case _ =>
    }
  }

  /** Remove then add at an existing location always succeeds and substitutes in place. */
  lemma {:induction false} ReplaceIsSubstitution(v: Value, tokens: seq<string>, x: Value)
    requires Lookup(v, tokens).Some?
    ensures RemoveAt(v, tokens).Some?
    ensures AddAt(RemoveAt(v, tokens).value, tokens, x) == Some(Substitute(v, tokens, x))
  {
    if |tokens| == 1 {
      RemoveAddChild(v, tokens[0], x);
    } else if |tokens| > 1 {
      var child := Child(v, tokens[0]).value;
      ReplaceIsSubstitution(child, tokens[1..], x);
      var gone := RemoveAt(child, tokens[1..]).value;
      SetTwice(v, tokens[0], gone, Substitute(child, tokens[1..], x));
    }
  }

  lemma {:induction false} SubstituteHere(v: Value, tokens: seq<string>, x: Value)
    requires Lookup(v, tokens).Some?
    ensures Lookup(Substitute(v, tokens, x), tokens) == Some(x)
  {
    if tokens != [] {
      SubstituteHere(Child(v, tokens[0]).value, tokens[1..], x);
    }
  }

  /** Different tokens are different children: an index has one spelling. */
  lemma {:induction false} SetOtherChild(v: Value, token: string, other: string, x: Value)
    requires Child(v, token).Some? && token != other
    ensures Child(SetChild(v, token, x), other) == Child(v, other)
  {
    if v.Array? && ArrayIndex(other).Some? {
      DecimalOfIndex(token);
      DecimalOfIndex(other);
    }
  }

  ghost predicate Apart(p: seq<string>, q: seq<string>) {
    !(p <= q) && !(q <= p)
  }

  lemma {:induction false} ApartTail(p: seq<string>, q: seq<string>)
    requires Apart(p, q) && p[0] == q[0]
    ensures Apart(p[1..], q[1..])
  {
    assert p == [p[0]] + p[1..] && q == [q[0]] + q[1..];
  }

  /** Substitution leaves every location alone that is neither above nor below it. */
  lemma {:induction false} SubstituteElsewhere(v: Value, tokens: seq<string>, x: Value, q: seq<string>)
    requires Lookup(v, tokens).Some? && Apart(tokens, q)
    ensures Lookup(Substitute(v, tokens, x), q) == Lookup(v, q)
  {
    if tokens[0] == q[0] {
      ApartTail(tokens, q);
      SubstituteElsewhere(Child(v, tokens[0]).value, tokens[1..], x, q[1..]);
    } else {
      SetOtherChild(v, tokens[0], q[0], Substitute(Child(v, tokens[0]).value, tokens[1..], x));
    }
  }

  /** The parent of a location, and its last token. */
  function Parent(v: Value, tokens: seq<string>): Option<Value>
    requires tokens != []
  {
    Lookup(v, tokens[..|tokens| - 1])
  }

  lemma {:induction false} ParentStep(v: Value, tokens: seq<string>)
    requires |tokens| > 1 && Child(v, tokens[0]).Some?
    ensures Parent(v, tokens) == Parent(Child(v, tokens[0]).value, tokens[1..])
  {
    assert tokens[..|tokens| - 1][1..] == tokens[1..][..|tokens| - 2];
  }

  /** A slot that adding creates, and that the same token names afterwards. */
  predicate NewSlot(v: Value, tokens: seq<string>) {
    if tokens == [] then v.Null?
    else
      var parent := Parent(v, tokens);
      parent.Some? && match parent.value
        case Object(fields) => tokens[|tokens| - 1] !in fields
        case Array(items) => tokens[|tokens| - 1] != "-"
        case _ => false
  }

  lemma {:induction false} AddRemoveChild(v: Value, token: string, x: Value)
    requires AddChild(v, token, x).Some?
    ensures RemoveChild(AddChild(v, token, x).value, token) == Some(v) <==> NewSlot(v, [token])
  {
    assert [token][..0] == [] && [token][0] == token;
    match v {
      case Object(fields) =>
        assert token !in fields ==> fields[token := x] - {token} == fields;
      case Array(items) =>
        if token != "-" {
          var i := ArrayIndex(token).value;
          assert DeleteAt(InsertAt(items, i, x), i) == items;
        } else {
          assert ArrayIndex(token).None?;
        }
      case _ =>
    }
  }

  lemma {:induction false} SetChildInjective(v: Value, token: string, a: Value, b: Value)
    requires Child(v, token) == Some(a)
    ensures SetChild(v, token, a) == v
    ensures SetChild(v, token, b) == v <==> a == b
  {
  }

  /** Adding and then removing at one location gives the document back exactly when the slot is new. */
  lemma {:induction false} AddThenRemove(v: Value, tokens: seq<string>, x: Value)
    requires AddAt(v, tokens, x).Some?
    ensures RemoveAt(AddAt(v, tokens, x).value, tokens) == Some(v) <==> NewSlot(v, tokens)
  {
    if |tokens| == 1 {
      assert tokens == [tokens[0]];
      AddRemoveChild(v, tokens[0], x);
    } else if |tokens| > 1 {
      var child := Child(v, tokens[0]).value;
      AddThenRemove(child, tokens[1..], x);
      ParentStep(v, tokens);
      var added := AddAt(child, tokens[1..], x).value;
      var removed := RemoveAt(added, tokens[1..]);
      if removed.Some? {
        SetTwice(v, tokens[0], added, removed.value);
        SetChildInjective(v, tokens[0], child, removed.value);
      }
    }
  }

  // ---------------------------------------------------------------------------------------------
  // What an insertion moves
  // ---------------------------------------------------------------------------------------------

  /** Where the node at `q` is found after adding at `p`: array elements from the slot on move up. */
  function Shifted(v: Value, p: seq<string>, q: seq<string>): seq<string> {
    if p == [] || q == [] then q
    else if |p| == 1 then
      if v.Array? && InsertPosition(v.items, p[0]).Some? && ArrayIndex(q[0]).Some?
         && ArrayIndex(q[0]).value >= InsertPosition(v.items, p[0]).value
      then [Decimal(ArrayIndex(q[0]).value + 1)] + q[1..]
      else q
    else if p[0] == q[0] && Child(v, p[0]).Some? then [q[0]] + Shifted(Child(v, p[0]).value, p[1..], q[1..])
    else q
  }

  /** `q` does not contain the slot, and is not a member that adding at `p` overwrites. */
  ghost predicate Survives(v: Value, p: seq<string>, q: seq<string>) {
    !(q <= p) || (q == p != [] && Parent(v, p).Some? && Parent(v, p).value.Array?)
  }

  ghost predicate Overwritten(v: Value, p: seq<string>, q: seq<string>) {
    p <= q && (p == [] || (Parent(v, p).Some? && Parent(v, p).value.Object?))
  }

  /** Every array is shorter than the machine can count. */
  ghost predicate Countable(v: Value, p: seq<string>) {
    forall n :: 0 <= n <= |p| ==>
      var node := Lookup(v, p[..n]);
      node.Some? && node.value.Array? ==> |node.value.items| <= USIZE_MAX
  }

  lemma {:induction false} CountableStep(v: Value, p: seq<string>)
    requires |p| > 0 && Countable(v, p) && Child(v, p[0]).Some?
    ensures Countable(Child(v, p[0]).value, p[1..])
  {
    var child := Child(v, p[0]).value;
    forall n | 0 <= n <= |p| - 1
      ensures var node := Lookup(child, p[1..][..n]);
              node.Some? && node.value.Array? ==> |node.value.items| <= USIZE_MAX
    {
      assert p[..n + 1][1..] == p[1..][..n];
      assert Lookup(v, p[..n + 1]) == Lookup(child, p[1..][..n]);
    }
  }

  lemma {:induction false} AddChildElsewhere(v: Value, token: string, x: Value, q: seq<string>)
    requires AddChild(v, token, x).Some? && q != [] && Lookup(v, q).Some?
    requires v.Object? ==> q[0] != token
    requires v.Array? ==> |v.items| <= USIZE_MAX
    ensures Lookup(AddChild(v, token, x).value, Shifted(v, [token], q)) == Lookup(v, q)
  {
    var next := AddChild(v, token, x).value;
    if v.Array? {
      var i, j := InsertPosition(v.items, token).value, ArrayIndex(q[0]).value;
      assert [token][0] == token;
      if j >= i {
        IndexOfDecimal(j + 1);
        var shifted := [Decimal(j + 1)] + q[1..];
        assert shifted[0] == Decimal(j + 1) && shifted[1..] == q[1..];
        assert next.items[j + 1] == v.items[j];
      } else {
        assert next.items[j] == v.items[j];
      }
    }
  }

  /** Nothing is lost by adding: each node that is not overwritten is where `Shifted` says. */
  lemma {:induction false} AddElsewhere(v: Value, p: seq<string>, x: Value, q: seq<string>)
    requires AddAt(v, p, x).Some? && Lookup(v, q).Some? && Countable(v, p)
    requires Survives(v, p, q) && !Overwritten(v, p, q)
    ensures Lookup(AddAt(v, p, x).value, Shifted(v, p, q)) == Lookup(v, q)
  {
    if |p| == 1 {
      assert p[..0] == [] && Parent(v, p) == Some(v) && p == [p[0]];
      assert v == Lookup(v, p[..0]).value;
      AddChildElsewhere(v, p[0], x, q);
    } else {
      var child := Child(v, p[0]).value;
      var inner := AddAt(child, p[1..], x).value;
      if p[0] == q[0] {
        ParentStep(v, p);
        CountableStep(v, p);
        assert p == [p[0]] + p[1..] && q == [q[0]] + q[1..];
        AddElsewhere(child, p[1..], x, q[1..]);
        var shifted := Shifted(child, p[1..], q[1..]);
        assert ([q[0]] + shifted)[1..] == shifted;
      } else {
        SetOtherChild(v, p[0], q[0], inner);
      }
    }
  }

  /** Where the node at `q` is found after removing `p`: later array elements move down. */
  function Closed(v: Value, p: seq<string>, q: seq<string>): seq<string> {
    if p == [] || q == [] then q
    else if |p| == 1 then
      if v.Array? && ArrayIndex(p[0]).Some? && ArrayIndex(q[0]).Some? && ArrayIndex(q[0]).value > ArrayIndex(p[0]).value
      then [Decimal(ArrayIndex(q[0]).value - 1)] + q[1..]
      else q
    else if p[0] == q[0] && Child(v, p[0]).Some? then [q[0]] + Closed(Child(v, p[0]).value, p[1..], q[1..])
    else q
  }

  lemma {:induction false} RemoveChildElsewhere(v: Value, token: string, q: seq<string>)
    requires RemoveChild(v, token).Some? && q != [] && q[0] != token && Lookup(v, q).Some?
    ensures Lookup(RemoveChild(v, token).value, Closed(v, [token], q)) == Lookup(v, q)
  {
    var next := RemoveChild(v, token).value;
    assert [token][0] == token;
    if v.Array? {
      var i, j := ArrayIndex(token).value, ArrayIndex(q[0]).value;
      DecimalOfIndex(token);
      DecimalOfIndex(q[0]);
      if j > i {
        IndexOfDecimal(j - 1);
        var closed := [Decimal(j - 1)] + q[1..];
        assert closed[0] == Decimal(j - 1) && closed[1..] == q[1..];
        assert next.items[j - 1] == v.items[j];
      } else {
        assert next.items[j] == v.items[j];
      }
    }
  }

  /** Removing takes one subtree away and keeps every other node, where `Closed` says. */
  lemma {:induction false} RemoveElsewhere(v: Value, p: seq<string>, q: seq<string>)
    requires RemoveAt(v, p).Some? && Lookup(v, q).Some? && Apart(p, q)
    ensures Lookup(RemoveAt(v, p).value, Closed(v, p, q)) == Lookup(v, q)
  {
    if |p| == 1 {
      assert p == [p[0]] && q == [q[0]] + q[1..];
      RemoveChildElsewhere(v, p[0], q);
    } else {
      var child := Child(v, p[0]).value;
      if p[0] == q[0] {
        ApartTail(p, q);
        RemoveElsewhere(child, p[1..], q[1..]);
        var closed := Closed(child, p[1..], q[1..]);
        assert ([q[0]] + closed)[1..] == closed;
      } else {
        SetOtherChild(v, p[0], q[0], RemoveAt(child, p[1..]).value);
      }
    }
  }

  /** Where the added value itself is found. */
  function Landing(v: Value, p: seq<string>): seq<string> {
    if p == [] then []
    else if |p| == 1 then
      if v.Array? && p[0] == "-" then [Decimal(|v.items|)] else p
    else if Child(v, p[0]).Some? then [p[0]] + Landing(Child(v, p[0]).value, p[1..])
    else p
  }

  lemma {:induction false} AddHere(v: Value, p: seq<string>, x: Value)
    requires AddAt(v, p, x).Some? && Countable(v, p)
    ensures Lookup(AddAt(v, p, x).value, Landing(v, p)) == Some(x)
  {
    if |p| == 1 {
      assert p[..0] == [];
      assert v == Lookup(v, p[..0]).value;
      var next := AddChild(v, p[0], x).value;
      if v.Array? {
        IndexOfDecimal(|v.items|);
        assert next.items[InsertPosition(v.items, p[0]).value] == x;
      }
      assert Child(next, Landing(v, p)[0]) == Some(x);
    } else if |p| > 1 {
      var child := Child(v, p[0]).value;
      CountableStep(v, p);
      AddHere(child, p[1..], x);
      var landing := Landing(child, p[1..]);
      assert ([p[0]] + landing)[1..] == landing;
    }
  }

  // ---------------------------------------------------------------------------------------------
  // The operations themselves (sections 4.1 to 4.6)
  // ---------------------------------------------------------------------------------------------

  /** An operation object; members other than the ones an operation reads are ignored. */
  function Op(name: string, path: string, rest: Fields): Value {
    Object(rest["op" := Str(name)]["path" := Str(path)])
  }

  const OPERATIONS: set<string> := {"add", "remove", "replace", "move", "copy", "test"}

  /** Only the six operations apply, and each needs its members; so the laws below cover every operation. */
  lemma {:induction false} OnlyOperations(v: Value, operation: Value)
    requires Operate(v, operation).Some?
    ensures operation.Object?
    ensures var o := operation.fields;
            var name, path := Text(Get(o, "op")), Text(Get(o, "path"));
            && name.Some? && path.Some? && name.value in OPERATIONS && operation == Op(name.value, path.value, o)
            && Tokens(path.value).Some?
            && (name.value in {"add", "replace", "test"} ==> Get(o, "value").Some?)
            && (name.value in {"move", "copy"} ==> Text(Get(o, "from")).Some?)
  {
    var o := operation.fields;
    var name, path := Text(Get(o, "op")).value, Text(Get(o, "path")).value;
    assert o["op" := Str(name)]["path" := Str(path)] == o;
  }

  /** Where something can be added: the whole document, a member of an object, a slot of an array. */
  predicate Addable(v: Value, p: seq<string>) {
    p == [] ||
    (var parent, token := Parent(v, p), p[|p| - 1];
     parent.Some? && match parent.value
       case Object(_) => true
       case Array(items) => token == "-" || (ArrayIndex(token).Some? && ArrayIndex(token).value <= |items|)
       case _ => false)
  }

  lemma {:induction false} AddsExactly(v: Value, p: seq<string>, x: Value)
    ensures AddAt(v, p, x).Some? <==> Addable(v, p)
  {
    if |p| == 1 {
      assert p[..0] == [];
    } else if |p| > 1 {
      if Child(v, p[0]).Some? {
        ParentStep(v, p);
        AddsExactly(Child(v, p[0]).value, p[1..], x);
      } else {
        assert p[..|p| - 1][0] == p[0];
      }
    }
  }

  lemma {:induction false} RemovesExactly(v: Value, p: seq<string>)
    ensures RemoveAt(v, p).Some? <==> Lookup(v, p).Some?
  {
    if |p| == 1 {
      assert p[1..] == [];
    } else if |p| > 1 && Child(v, p[0]).Some? {
      RemovesExactly(Child(v, p[0]).value, p[1..]);
    }
  }

  /** Members or elements of a container: how many there are, and of an object also which. */
  ghost predicate OneMore(before: Value, after: Value, token: string) {
    match before
    case Object(fields) => after.Object? && after.fields.Keys == fields.Keys + {token}
    case Array(items) => after.Array? && |after.items| == |items| + 1
    case _ => false
  }

  ghost predicate OneLess(before: Value, after: Value, token: string) {
    match before
    case Object(fields) => after.Object? && after.fields.Keys == fields.Keys - {token}
    case Array(items) => after.Array? && |after.items| == |items| - 1
    case _ => false
  }

  /** Adding changes nothing but the container it adds to. */
  lemma {:induction false} AddInParent(v: Value, p: seq<string>, x: Value) returns (container: Value)
    requires p != [] && AddAt(v, p, x).Some?
    ensures Parent(v, p).Some? && OneMore(Parent(v, p).value, container, p[|p| - 1])
    ensures AddAt(v, p, x) == Some(Substitute(v, p[..|p| - 1], container))
  {
    if |p| == 1 {
      assert p[..0] == [];
      container := AddChild(v, p[0], x).value;
    } else {
      container := AddInParent(Child(v, p[0]).value, p[1..], x);
      ParentStep(v, p);
      SubstituteStep(v, p, container);
    }
  }

  lemma {:induction false} SubstituteStep(v: Value, p: seq<string>, x: Value)
    requires |p| > 1 && Child(v, p[0]).Some? && Parent(Child(v, p[0]).value, p[1..]).Some?
    ensures Parent(v, p).Some?
    ensures Substitute(v, p[..|p| - 1], x)
         == SetChild(v, p[0], Substitute(Child(v, p[0]).value, p[1..][..|p| - 2], x))
  {
    ParentStep(v, p);
    assert p[..|p| - 1][1..] == p[1..][..|p| - 2];
  }

  /** Nor does removing. */
  lemma {:induction false} RemoveInParent(v: Value, p: seq<string>) returns (container: Value)
    requires p != [] && RemoveAt(v, p).Some?
    ensures Parent(v, p).Some? && OneLess(Parent(v, p).value, container, p[|p| - 1])
    ensures RemoveAt(v, p) == Some(Substitute(v, p[..|p| - 1], container))
  {
    if |p| == 1 {
      assert p[..0] == [];
      container := RemoveChild(v, p[0]).value;
    } else {
      container := RemoveInParent(Child(v, p[0]).value, p[1..]);
      ParentStep(v, p);
      SubstituteStep(v, p, container);
    }
  }

  /** What `after` is once `x` has been added at `p`: it is there, and every other node is where `Shifted` says. */
  ghost predicate Added(v: Value, p: seq<string>, x: Value, after: Value) {
    && (p == [] ==> after == x)
    && (p != [] ==>
          && Parent(v, p).Some? && Parent(after, p).Some?
          && OneMore(Parent(v, p).value, Parent(after, p).value, p[|p| - 1])
          && after == Substitute(v, p[..|p| - 1], Parent(after, p).value))
    && (Countable(v, p) ==> Lookup(after, Landing(v, p)) == Some(x))
    && (Countable(v, p) ==> forall q :: Lookup(v, q).Some? && Survives(v, p, q) && !Overwritten(v, p, q) ==>
          Lookup(after, Shifted(v, p, q)) == Lookup(v, q))
  }

  lemma {:induction false} AddAtAdds(v: Value, p: seq<string>, x: Value)
    requires AddAt(v, p, x).Some?
    ensures Added(v, p, x, AddAt(v, p, x).value)
  {
    if p != [] {
      var container := AddInParent(v, p, x);
      SubstituteHere(v, p[..|p| - 1], container);
    }
    if Countable(v, p) {
      AddHere(v, p, x);
      forall q | Lookup(v, q).Some? && Survives(v, p, q) && !Overwritten(v, p, q)
        ensures Lookup(AddAt(v, p, x).value, Shifted(v, p, q)) == Lookup(v, q)
      {
        AddElsewhere(v, p, x, q);
      }
    }
  }

  /** What `after` is once `p` has been removed: that node is gone, and every other one is where `Closed` says. */
  ghost predicate Removed(v: Value, p: seq<string>, after: Value) {
    && (p == [] ==> after == Null)
    && (p != [] ==>
          && Parent(v, p).Some? && Parent(after, p).Some?
          && OneLess(Parent(v, p).value, Parent(after, p).value, p[|p| - 1])
          && after == Substitute(v, p[..|p| - 1], Parent(after, p).value))
    && (forall q :: Lookup(v, q).Some? && Apart(p, q) ==> Lookup(after, Closed(v, p, q)) == Lookup(v, q))
  }

  lemma {:induction false} RemoveAtRemoves(v: Value, p: seq<string>)
    requires RemoveAt(v, p).Some?
    ensures Removed(v, p, RemoveAt(v, p).value)
  {
    if p != [] {
      var container := RemoveInParent(v, p);
      SubstituteHere(v, p[..|p| - 1], container);
    }
    forall q | Lookup(v, q).Some? && Apart(p, q)
      ensures Lookup(RemoveAt(v, p).value, Closed(v, p, q)) == Lookup(v, q)
    {
      RemoveElsewhere(v, p, q);
    }
  }

  /** Add applies exactly where something can be added, and adds just that (section 4.1). */
  lemma {:induction false} AddLaw(v: Value, path: string, x: Value, rest: Fields)
    ensures var added := Operate(v, Op("add", path, rest["value" := x]));
            && (added.Some? <==> Tokens(path).Some? && Addable(v, Tokens(path).value))
            && (added.Some? ==> Added(v, Tokens(path).value, x, added.value))
  {
    AddReads(v, path, x, rest);
    if Tokens(path).Some? {
      var p := Tokens(path).value;
      AddsExactly(v, p, x);
      if AddAt(v, p, x).Some? {
        AddAtAdds(v, p, x);
      }
    }
  }

  lemma {:induction false} AddReads(v: Value, path: string, x: Value, rest: Fields)
    ensures Operate(v, Op("add", path, rest["value" := x])) == AddPath(v, path, x)
  {
  }

  /** Remove applies exactly at existing locations, and removes just that (section 4.2). */
  lemma {:induction false} RemoveLaw(v: Value, path: string, rest: Fields)
    ensures var removed := Operate(v, Op("remove", path, rest));
            && (removed.Some? <==> GetPath(v, path).Some?)
            && (removed.Some? ==> Removed(v, Tokens(path).value, removed.value))
  {
    RemoveReads(v, path, rest);
    if Tokens(path).Some? {
      var p := Tokens(path).value;
      RemovesExactly(v, p);
      if RemoveAt(v, p).Some? {
        RemoveAtRemoves(v, p);
      }
    }
  }

  lemma {:induction false} RemoveReads(v: Value, path: string, rest: Fields)
    ensures Operate(v, Op("remove", path, rest)) == RemovePath(v, path)
  {
  }

  /** Replace applies exactly at existing locations, and substitutes there (section 4.3). */
  lemma {:induction false} ReplaceLaw(v: Value, path: string, x: Value, rest: Fields)
    ensures Operate(v, Op("replace", path, rest["value" := x]))
         == if GetPath(v, path).Some? then Some(Substitute(v, Tokens(path).value, x)) else None
  {
    if GetPath(v, path).Some? {
      ReplaceIsSubstitution(v, Tokens(path).value, x);
    }
  }

  lemma {:induction false} MoveReads(v: Value, from: string, path: string, rest: Fields)
    ensures Operate(v, Op("move", path, rest["from" := Str(from)])) ==
            if from + "/" <= path || GetPath(v, from).None? || RemovePath(v, from).None? then None
            else AddPath(RemovePath(v, from).value, path, GetPath(v, from).value)
  {
  }

  /** A location cannot move into itself; moving it nowhere changes nothing (section 4.4). */
  lemma {:induction false} MoveLaw(v: Value, from: string, path: string, rest: Fields)
    ensures var moved := Operate(v, Op("move", path, rest["from" := Str(from)]));
            if GetPath(v, from).None? || Tokens(path).None? then moved.None?
            else
              var f, p := Tokens(from).value, Tokens(path).value;
              && (f <= p && f != p ==> moved.None?)
              && (f == p ==> moved == Some(v))
              && (!(f <= p) ==> RemoveAt(v, f).Some? && moved == AddAt(RemoveAt(v, f).value, p, GetPath(v, from).value))
  {
    MoveReads(v, from, path, rest);
    if GetPath(v, from).Some? && Tokens(path).Some? {
      PrefixGuard(from, path);
      var f := Tokens(from).value;
      ReplaceIsSubstitution(v, f, GetPath(v, from).value);
      SubstituteSame(v, f);
    }
  }

  lemma {:induction false} SubstituteSame(v: Value, tokens: seq<string>)
    requires Lookup(v, tokens).Some?
    ensures Substitute(v, tokens, Lookup(v, tokens).value) == v
  {
    if tokens != [] {
      var child := Child(v, tokens[0]).value;
      SubstituteSame(child, tokens[1..]);
      SetChildInjective(v, tokens[0], child, child);
    }
  }

  lemma {:induction false} CopyReads(v: Value, from: string, path: string, rest: Fields)
    ensures Operate(v, Op("copy", path, rest["from" := Str(from)]))
         == if GetPath(v, from).Some? then AddPath(v, path, GetPath(v, from).value) else None
  {
  }

  /** A copy adds what its source shows, and leaves the source where the insertion moves it (section 4.5). */
  lemma {:induction false} CopyLaw(v: Value, from: string, path: string, rest: Fields)
    ensures var copied := Operate(v, Op("copy", path, rest["from" := Str(from)]));
            && (copied.Some? <==> GetPath(v, from).Some? && Tokens(path).Some? && Addable(v, Tokens(path).value))
            && (copied.Some? ==> Added(v, Tokens(path).value, GetPath(v, from).value, copied.value))
  {
    CopyReads(v, from, path, rest);
    if GetPath(v, from).Some? && Tokens(path).Some? {
      var p := Tokens(path).value;
      AddsExactly(v, p, GetPath(v, from).value);
      if Addable(v, p) {
        AddAtAdds(v, p, GetPath(v, from).value);
      }
    }
  }

  /** A test changes nothing, and passes exactly on an equal value at an existing location (section 4.6). */
  lemma {:induction false} TestLaw(v: Value, path: string, x: Value, rest: Fields)
    ensures var tested := Operate(v, Op("test", path, rest["value" := x]));
            && (tested.Some? <==> Tokens(path).Some? && Lookup(v, Tokens(path).value) == Some(x))
            && (tested.Some? ==> tested.value == v)
  {
  }

  // ---------------------------------------------------------------------------------------------
  // A whole patch
  // ---------------------------------------------------------------------------------------------

  /** The operation applies to `v`, gives `w`, and that is not too large. */
  ghost predicate Applies(lib: Library, v: Value, operation: Value, w: Value) {
    Operate(v, operation) == Some(w) && lib.size(w) <= MAX_EVENT_BYTES
  }

  lemma {:induction false} AppliesExactly(lib: Library, v: Value, operation: Value, w: Value)
    ensures OperateBounded(lib, v, operation) == Ok(w) <==> Applies(lib, v, operation, w)
  {
  }

  /** The documents a patch goes through, one operation after the other. */
  ghost predicate Chain(lib: Library, v: Value, patch: seq<Value>, documents: seq<Value>) {
    && |documents| == |patch| + 1 && documents[0] == v
    && forall i :: 0 <= i < |patch| ==> Applies(lib, documents[i], patch[i], documents[i + 1])
  }

  /** A patch applies exactly if there is such a chain, and its result is where the chain ends. */
  lemma {:induction false} PatchLaw(lib: Library, v: Value, patch: seq<Value>, w: Value)
    ensures PatchResult(lib, v, patch) == Ok(w) <==>
              |patch| <= MAX_ITEMS && exists documents :: Chain(lib, v, patch, documents) && documents[|patch|] == w
  {
    if PatchResult(lib, v, patch) == Ok(w) {
      var documents := ChainOf(lib, v, patch);
    }
    if |patch| <= MAX_ITEMS && exists documents :: Chain(lib, v, patch, documents) && documents[|patch|] == w {
      var documents :| Chain(lib, v, patch, documents) && documents[|patch|] == w;
      ChainPatches(lib, v, patch, documents);
    }
  }

  lemma {:induction false} ChainOf(lib: Library, v: Value, patch: seq<Value>) returns (documents: seq<Value>)
    requires Patched(lib, v, patch).Ok?
    ensures Chain(lib, v, patch, documents) && Patched(lib, v, patch) == Ok(documents[|patch|])
  {
    if patch == [] {
      documents := [v];
    } else {
      var front := ChainOf(lib, v, patch[..|patch| - 1]);
      var last := Patched(lib, v, patch).value;
      AppliesExactly(lib, front[|patch| - 1], patch[|patch| - 1], last);
      documents := front + [last];
      ChainSnoc(lib, v, patch, front, last);
    }
  }

  lemma {:induction false} ChainSnoc(lib: Library, v: Value, patch: seq<Value>, front: seq<Value>, last: Value)
    requires patch != [] && Chain(lib, v, patch[..|patch| - 1], front)
    requires Applies(lib, front[|patch| - 1], patch[|patch| - 1], last)
    ensures Chain(lib, v, patch, front + [last])
  {
    var documents := front + [last];
    forall i | 0 <= i < |patch| ensures Applies(lib, documents[i], patch[i], documents[i + 1]) {
      if i < |patch| - 1 {
        assert Applies(lib, front[i], patch[..|patch| - 1][i], front[i + 1]);
      }
    }
  }

  lemma {:induction false} ChainPatches(lib: Library, v: Value, patch: seq<Value>, documents: seq<Value>)
    requires Chain(lib, v, patch, documents)
    ensures Patched(lib, v, patch) == Ok(documents[|patch|])
  {
    if patch != [] {
      ChainPatches(lib, v, patch[..|patch| - 1], documents[..|patch|]);
      AppliesExactly(lib, documents[|patch| - 1], patch[|patch| - 1], documents[|patch|]);
    }
  }

  /** The first operation that cannot apply, or makes the document too large, decides the error. */
  lemma {:induction false} PatchError(lib: Library, v: Value, patch: seq<Value>, n: nat, documents: seq<Value>)
    requires n < |patch| <= MAX_ITEMS && Chain(lib, v, patch[..n], documents)
    ensures var next := Operate(documents[n], patch[n]);
            && (next.None? ==> PatchResult(lib, v, patch) == Err(InvalidPatch))
            && (next.Some? && lib.size(next.value) > MAX_EVENT_BYTES ==> PatchResult(lib, v, patch) == Err(TooLarge))
  {
    ChainPatches(lib, v, patch[..n], documents);
    assert patch[..n + 1][..n] == patch[..n];
    if OperateBounded(lib, documents[n], patch[n]).Err? {
      PatchedFails(lib, v, patch, n + 1);
    }
  }
}
