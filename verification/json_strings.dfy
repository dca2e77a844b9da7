/** internal/evaluation/muse.go, 843-902: the strings of a JSON object, read off its token stream
    with an explicit stack. */
module JsonStrings {
  /** What the decoder delivers: delimiters, strings, and everything else. */
  datatype Token = OpenObject | CloseObject | OpenArray | CloseArray | Text(text: string) | Other

  /** JSON values, with numbers, booleans and null not told apart. */
  datatype Value = Str(text: string) | Scalar | Arr(items: Items) | Obj(members: Members)

  datatype Items = NoItems | Item(value: Value, rest: Items)

  datatype Members = NoMembers | Member(key: string, value: Value, rest: Members)

  datatype EventString = EventString(path: string, value: string)

  function Tokens(v: Value): seq<Token> {
    match v
    case Str(s) => [Text(s)]
    case Scalar => [Other]
    case Arr(items) => [OpenArray] + ItemTokens(items) + [CloseArray]
    case Obj(members) => [OpenObject] + MemberTokens(members) + [CloseObject]
  }

  function ItemTokens(items: Items): seq<Token> {
    match items
    case NoItems => []
    case Item(v, rest) => Tokens(v) + ItemTokens(rest)
  }

  function MemberTokens(members: Members): seq<Token> {
    match members
    case NoMembers => []
    case Member(key, v, rest) => [Text(key)] + Tokens(v) + MemberTokens(rest)
  }

  /** strings.Join with a slash. */
  function JoinPath(parts: seq<string>): string {
    if parts == [] then ""
    else if |parts| == 1 then parts[0]
    else parts[0] + "/" + JoinPath(parts[1..])
  }

  /** The meaning: a recursive traversal that collects the string values, not the keys, in document
      order, each with the keys on the way to it. */
  function Strings(v: Value, path: seq<string>): seq<EventString> {
    match v
    case Str(s) => [EventString(JoinPath(path), s)]
    case Scalar => []
    case Arr(items) => ItemStrings(items, path + ["[]"])
    case Obj(members) => MemberStrings(members, path)
  }

  function ItemStrings(items: Items, path: seq<string>): seq<EventString> {
    match items
    case NoItems => []
    case Item(v, rest) => Strings(v, path) + ItemStrings(rest, path)
  }

  function MemberStrings(members: Members, path: seq<string>): seq<EventString> {
    match members
    case NoMembers => []
    case Member(key, v, rest) => Strings(v, path + [key]) + MemberStrings(rest, path)
  }

  /** The walker's stack. */
  datatype Frame = Frame(isObject: bool, key: string, expectKey: bool)

  function PathOf(stack: seq<Frame>): seq<string> {
    if stack == [] then []
    else
      var top := stack[|stack| - 1];
      PathOf(stack[..|stack| - 1]) + [if top.isObject then top.key else "[]"]
  }

  function ValueDone(stack: seq<Frame>): seq<Frame> {
    if |stack| > 0 && stack[|stack| - 1].isObject
    then stack[|stack| - 1 := stack[|stack| - 1].(expectKey := true)]
    else stack
  }

  predicate ExpectsKey(stack: seq<Frame>) {
    |stack| > 0 && stack[|stack| - 1].isObject && stack[|stack| - 1].expectKey
  }

  /** panicked: a closing delimiter found nothing to pop, where the slice expression of the code
      would panic. */
  datatype Walk = Walk(stack: seq<Frame>, out: seq<EventString>, panicked: bool)

  function Step(w: Walk, t: Token): Walk {
    match t
    case OpenObject => w.(stack := w.stack + [Frame(true, "", true)])
    case OpenArray => w.(stack := w.stack + [Frame(false, "", false)])
    case CloseObject => Pop(w)
    case CloseArray => Pop(w)
    case Text(s) =>
      if ExpectsKey(w.stack) then
        w.(stack := w.stack[|w.stack| - 1 := w.stack[|w.stack| - 1].(key := s, expectKey := false)])
      else
        w.(stack := ValueDone(w.stack), out := w.out + [EventString(JoinPath(PathOf(w.stack)), s)])
    case Other => w.(stack := ValueDone(w.stack))
  }

  function Pop(w: Walk): Walk {
    if w.stack == [] then w.(panicked := true) else w.(stack := ValueDone(w.stack[..|w.stack| - 1]))
  }

  function Steps(w: Walk, tokens: seq<Token>): Walk
    decreases |tokens|
  {
    if tokens == [] then w else Steps(Step(w, tokens[0]), tokens[1..])
  }

  lemma {:induction false} StepsConcat(w: Walk, s: seq<Token>, t: seq<Token>)
    ensures Steps(w, s + t) == Steps(Steps(w, s), t)
    decreases |s|
  {
    if s == [] {
      assert s + t == t;
    } else {
      assert (s + t)[1..] == s[1..] + t;
      StepsConcat(Step(w, s[0]), s[1..], t);
    }
  }

  /** Each value's tokens add its strings, under the path the stack spells, and leave the stack as
      it was, with the value noted as done. */
  lemma {:induction false} WalkValue(v: Value, w: Walk)
    requires !ExpectsKey(w.stack)
    ensures Steps(w, Tokens(v)) == Walk(ValueDone(w.stack), w.out + Strings(v, PathOf(w.stack)), w.panicked)
    decreases v
  {
    match v
    case Str(s) => StepsOne(w, Text(s));
    case Scalar =>
      StepsOne(w, Other);
      assert w.out + [] == w.out;
    case Arr(items) =>
      var inner := w.stack + [Frame(false, "", false)];
      assert inner[..|inner| - 1] == w.stack;
      StepsThree(w, OpenArray, ItemTokens(items), CloseArray);
      WalkItems(items, Walk(inner, w.out, w.panicked));
    case Obj(members) =>
      var inner := w.stack + [Frame(true, "", true)];
      StepsThree(w, OpenObject, MemberTokens(members), CloseObject);
      WalkMembers(members, Walk(inner, w.out, w.panicked), w.stack);
  }

  lemma StepsOne(w: Walk, t: Token)
    ensures Steps(w, [t]) == Step(w, t)
  {
    assert [t][1..] == [];
  }

  lemma StepsThree(w: Walk, before: Token, inside: seq<Token>, after: Token)
    ensures Steps(w, [before] + inside + [after]) == Step(Steps(Step(w, before), inside), after)
  {
    StepsConcat(w, [before] + inside, [after]);
    StepsConcat(w, [before], inside);
    StepsOne(w, before);
    StepsOne(Steps(Step(w, before), inside), after);
  }

  lemma {:induction false} WalkItems(items: Items, w: Walk)
    requires |w.stack| > 0 && w.stack[|w.stack| - 1] == Frame(false, "", false)
    ensures Steps(w, ItemTokens(items)) == Walk(w.stack, w.out + ItemStrings(items, PathOf(w.stack)), w.panicked)
    decreases items
  {
    match items
    case NoItems =>
    case Item(v, rest) =>
      var path := PathOf(w.stack);
      StepsConcat(w, Tokens(v), ItemTokens(rest));
      WalkValue(v, w);
      WalkItems(rest, Walk(w.stack, w.out + Strings(v, path), w.panicked));
      assert w.out + Strings(v, path) + ItemStrings(rest, path) == w.out + (Strings(v, path) + ItemStrings(rest, path));
  }

  /** Inside an object the top frame waits for the next key; whatever key it last held does not
      matter. */
  lemma {:induction false} WalkMembers(members: Members, w: Walk, below: seq<Frame>)
    requires |w.stack| > 0 && w.stack == below + [Frame(true, w.stack[|w.stack| - 1].key, true)]
    ensures Steps(w, MemberTokens(members)).out == w.out + MemberStrings(members, PathOf(below))
    ensures Steps(w, MemberTokens(members)).panicked == w.panicked
    ensures |Steps(w, MemberTokens(members)).stack| == |below| + 1
    ensures Steps(w, MemberTokens(members)).stack[..|below|] == below
    decreases members
  {
    match members
    case NoMembers =>
      assert w.out + [] == w.out;
    case Member(key, v, rest) =>
      var named := Walk(below + [Frame(true, key, false)], w.out, w.panicked);
      assert Step(w, Text(key)) == named;
      assert named.stack[..|below|] == below;
      StepsConcat(w, [Text(key)] + Tokens(v), MemberTokens(rest));
      StepsConcat(w, [Text(key)], Tokens(v));
      StepsOne(w, Text(key));
      WalkValue(v, named);
      var next := Walk(below + [Frame(true, key, true)], w.out + Strings(v, PathOf(below) + [key]), w.panicked);
      assert ValueDone(named.stack) == next.stack;
      WalkMembers(rest, next, below);
      assert next.out + MemberStrings(rest, PathOf(below))
          == w.out + (Strings(v, PathOf(below) + [key]) + MemberStrings(rest, PathOf(below)));
  }

  const START := Walk([], [], false)

  /** On the tokens of a whole document the walk yields exactly the strings of the recursive
      traversal, pops no empty stack and ends with an empty one. */
  lemma WalkIsTraversal(v: Value)
    ensures Steps(START, Tokens(v)) == Walk([], Strings(v, []), false)
  {
    WalkValue(v, START);
  }

  lemma {:induction false} PanicStays(w: Walk, tokens: seq<Token>)
    requires w.panicked
    ensures Steps(w, tokens).panicked
    decreases |tokens|
  {
    if tokens != [] {
      PanicStays(Step(w, tokens[0]), tokens[1..]);
    }
  }

  method JsonlEventStrings(tokens: seq<Token>, ghost v: Value) returns (out: seq<EventString>)
    requires tokens == Tokens(v)
    ensures out == Strings(v, [])
  {
    var stack: seq<Frame> := [];
    out := [];
    WalkIsTraversal(v);
    for i := 0 to |tokens|
      invariant Steps(Walk(stack, out, false), tokens[i..]) == Walk([], Strings(v, []), false)
    {
      assert tokens[i..][0] == tokens[i] && tokens[i..][1..] == tokens[i + 1..];
      match tokens[i] {
        case OpenObject =>
          stack := stack + [Frame(true, "", true)];
        case OpenArray =>
          stack := stack + [Frame(false, "", false)];
        case Text(t) =>
          var n := |stack|;
          if n > 0 && stack[n - 1].isObject && stack[n - 1].expectKey {
            stack := stack[n - 1 := stack[n - 1].(key := t, expectKey := false)];
          } else {
            out := out + [EventString(JoinPath(PathOf(stack)), t)];
            stack := ValueDone(stack);
          }
        case Other =>
          stack := ValueDone(stack);
        case CloseObject =>
          StackIsOpen(Walk(stack, out, false), tokens[i..]);
          stack := ValueDone(stack[..|stack| - 1]);
        case CloseArray =>
          StackIsOpen(Walk(stack, out, false), tokens[i..]);
          stack := ValueDone(stack[..|stack| - 1]);
      }
    }
  }

  /** A walk that will not panic has something to pop at a closing delimiter. */
  lemma StackIsOpen(w: Walk, tokens: seq<Token>)
    requires !Steps(w, tokens).panicked && tokens != []
    requires tokens[0] == CloseObject || tokens[0] == CloseArray
    ensures w.stack != []
  {
    if w.stack == [] {
      PanicStays(Step(w, tokens[0]), tokens[1..]);
    }
  }
}
