/** `SequentialBlock`: an ordered, mutable list of child blocks run one after the other, with an
    `initialized` flag. A child is seen only through what the parent calls on it: its class name,
    its forward function, its shape functions and its own parameter serialisation. */
module SequentialBlocks {
  import opened Wrappers
  import opened Strings

  type Shape = seq<int>
  type Bytes = seq<bv8>

  /** A list of arrays. Java compares lists by reference; `id` stands for that identity. */
  datatype NDList = NDList(id: nat, arrays: seq<int>)

  /** A child block: its simple class name, what `forward`, `getOutputShapes` and `initialize`
      compute on it, its parameter values, and its own `saveParameters`/`loadParameters`
      (`load` consumes a prefix of the stream and returns the rest, `None` when it throws). */
  datatype Block = Block(
    className: string,
    forward: NDList -> NDList,
    outputShapes: seq<Shape> -> seq<Shape>,
    initialize: seq<Shape> -> seq<Shape>,
    params: seq<int>,
    save: seq<int> -> Bytes,
    load: Bytes -> Option<(seq<int>, Bytes)>)

  datatype Error =
    | EmptySequential               // IllegalArgumentException: the sequential block is empty
    | NoParameters                  // IllegalArgumentException: SequentialBlocks have no parameters
    | IndexOutOfBounds(index: int)  // ArrayList.remove(-1)
    | EndOfStream                   // EOFException from readByte
    | UnsupportedVersion(version: bv8)  // MalformedModelException
    | ChildLoadFailed(child: nat)   // the exception of that child's loadParameters

  /** The encoding version written first by `saveParameters`. */
  const VERSION: bv8 := 1

  // ---------------------------------------------------------------- running children in order

  /** The left fold: `fs` applied one after the other, starting from `x`. */
  function Fold<T>(fs: seq<T -> T>, x: T): T
  {
    if |fs| == 0 then x else fs[|fs| - 1](Fold(fs[..|fs| - 1], x))
  }

  /** `Feeds(fs, x)[k]` is the value passed to `fs[k]`. */
  function Feeds<T>(fs: seq<T -> T>, x: T): (r: seq<T>)
    ensures |r| == |fs|
  {
    if |fs| == 0 then [] else Feeds(fs[..|fs| - 1], x) + [Fold(fs[..|fs| - 1], x)]
  }

  /** Running `fs + gs` is running `fs`, then `gs` on its result. */
  lemma {:induction false} FoldAppend<T>(fs: seq<T -> T>, gs: seq<T -> T>, x: T)
    ensures Fold(fs + gs, x) == Fold(gs, Fold(fs, x))
  {
    if |gs| > 0 {
      assert (fs + gs)[..|fs + gs| - 1] == fs + gs[..|gs| - 1];
      FoldAppend(fs, gs[..|gs| - 1], x);
    } else {
      assert fs + gs == fs;
    }
  }

  /** Each child receives what the children before it computed, the first one the input. */
  lemma {:induction false} FeedsAreFolds<T>(fs: seq<T -> T>, x: T, k: nat)
    requires k < |fs|
    ensures Feeds(fs, x)[k] == Fold(fs[..k], x)
  {
    if k < |fs| - 1 {
      assert fs[..|fs| - 1][..k] == fs[..k];
      FeedsAreFolds(fs[..|fs| - 1], x, k);
    } else {
      assert fs[..|fs| - 1] == fs[..k];
    }
  }

  function ForwardFns(bs: seq<Block>): (fs: seq<NDList -> NDList>)
    ensures |fs| == |bs| && forall i :: 0 <= i < |bs| ==> fs[i] == bs[i].forward
  {
    seq(|bs|, i requires 0 <= i < |bs| => bs[i].forward)
  }

  function ShapeFns(bs: seq<Block>): (fs: seq<seq<Shape> -> seq<Shape>>)
    ensures |fs| == |bs| && forall i :: 0 <= i < |bs| ==> fs[i] == bs[i].outputShapes
  {
    seq(|bs|, i requires 0 <= i < |bs| => bs[i].outputShapes)
  }

  function InitFns(bs: seq<Block>): (fs: seq<seq<Shape> -> seq<Shape>>)
    ensures |fs| == |bs| && forall i :: 0 <= i < |bs| ==> fs[i] == bs[i].initialize
  {
    seq(|bs|, i requires 0 <= i < |bs| => bs[i].initialize)
  }

  /** Children appended with `add`/`addAll` run after the ones already there, on their output. */
  lemma ForwardAppended(a: seq<Block>, bs: seq<Block>, x: NDList)
    ensures Fold(ForwardFns(a + bs), x) == Fold(ForwardFns(bs), Fold(ForwardFns(a), x))
  {
    assert ForwardFns(a + bs) == ForwardFns(a) + ForwardFns(bs);
    FoldAppend(ForwardFns(a), ForwardFns(bs), x);
  }

  /** The lists `forward` closes: every list it passed on to a child, once that child has
      returned, unless it is the caller's own input list. */
  function ClosedLists(fs: seq<NDList -> NDList>, x: NDList): seq<NDList>
  {
    if |fs| == 0 then []
    else
      var previous := Fold(fs[..|fs| - 1], x);
      ClosedLists(fs[..|fs| - 1], x) + (if previous.id != x.id then [previous] else [])
  }

  /** `forward` closes exactly the intermediate lists that are not the caller's input: the input
      itself is never closed, and neither is a list no child received. */
  lemma {:induction false} ForwardClosesIntermediates(fs: seq<NDList -> NDList>, x: NDList, c: NDList)
    ensures c in ClosedLists(fs, x) <==> c.id != x.id && c in Feeds(fs, x)
  {
    if |fs| > 0 {
      ForwardClosesIntermediates(fs[..|fs| - 1], x, c);
    }
  }

  /** The output of the last child is closed only if an earlier child returned that same list. */
  lemma ForwardKeepsOutput(fs: seq<NDList -> NDList>, x: NDList)
    requires forall k :: 1 <= k < |fs| ==> Feeds(fs, x)[k].id != Fold(fs, x).id
    ensures Fold(fs, x) !in ClosedLists(fs, x)
  {
    ForwardClosesIntermediates(fs, x, Fold(fs, x));
    if |fs| > 0 && Fold(fs, x) in Feeds(fs, x) {
      var k :| 0 <= k < |fs| && Feeds(fs, x)[k] == Fold(fs, x);
      if k == 0 {
        FeedsAreFolds(fs, x, 0);
      }
    }
  }

  // ---------------------------------------------------------------- child names

  /** `String.format("%0<w>d:%s", i, className)` with `w` the decimal digit count of the number
      of children (`(int) Math.log10(n) + 1`). */
  function ChildName(i: nat, n: nat, className: string): string
  {
    Pad(i, DigitCount(n)) + ":" + className
  }

  /** The name of child `i` starts with `i` written in exactly as many digits as `n` has. */
  lemma ChildNameIndex(i: nat, n: nat, className: string)
    requires i < n
    ensures var w := DigitCount(n);
      var name := ChildName(i, n, className);
      |name| > w && AllDigits(name[..w]) && DecimalValue(name[..w]) == i && name[w] == ':' && name[w + 1..] == className
  {
    var w := DigitCount(n);
    var name := ChildName(i, n, className);
    assert name[..w] == Pad(i, w);
    PadValue(i, w);
  }

  /** Child names sort in child order whatever the class names. */
  lemma ChildNamesOrdered(i: nat, j: nat, n: nat, a: string, b: string)
    requires i < j < n
    ensures LexLess(ChildName(i, n, a), ChildName(j, n, b))
  {
    var w := DigitCount(n);
    PadOrdered(i, j, w);
    LexLessExtend(Pad(i, w), Pad(j, w), ":" + a, ":" + b);
    assert ChildName(i, n, a) == Pad(i, w) + (":" + a);
    assert ChildName(j, n, b) == Pad(j, w) + (":" + b);
  }

  lemma TwelveDigits()
    ensures DigitCount(12) == 2 && Pad(0, 2) == "00" && Pad(11, 2) == "11"
  {
    assert DigitCount(1) == 1;
    assert Pad(0, 1) == "0" && Pad(1, 1) == "1";
  }

  /** Twelve children are named `00:…` to `11:…`. */
  lemma TwelveChildren(a: string, b: string)
    ensures ChildName(0, 12, a) == "00:" + a && ChildName(11, 12, b) == "11:" + b
  {
    TwelveDigits();
  }

  // ---------------------------------------------------------------- parameters on a stream

  /** What each child writes, concatenated in child order with no length prefixes. */
  function SaveChildren(bs: seq<Block>): Bytes
  {
    if |bs| == 0 then [] else SaveChildren(bs[..|bs| - 1]) + bs[|bs| - 1].save(bs[|bs| - 1].params)
  }

  /** The children after each has loaded in turn from the stream, what is left of the stream,
      and the first child whose load failed; the children after it are not read. */
  datatype LoadOutcome = LoadOutcome(blocks: seq<Block>, rest: Bytes, failedAt: Option<nat>)

  function LoadChildren(bs: seq<Block>, input: Bytes): (o: LoadOutcome)
    ensures |o.blocks| == |bs|
  {
    if |bs| == 0 then LoadOutcome([], input, None)
    else
      var o := LoadChildren(bs[..|bs| - 1], input);
      var b := bs[|bs| - 1];
      if o.failedAt.Some? then LoadOutcome(o.blocks + [b], o.rest, o.failedAt)
      else
        match b.load(o.rest)
        case None => LoadOutcome(o.blocks + [b], o.rest, Some(|bs| - 1))
        case Some((p, rest)) => LoadOutcome(o.blocks + [b.(params := p)], rest, None)
  }

  /** A child load that failed ends the load: the later children stay as they were. */
  lemma {:induction false} LoadFailureStays(bs: seq<Block>, input: Bytes, k: nat)
    requires k <= |bs| && LoadChildren(bs[..k], input).failedAt.Some?
    ensures var o := LoadChildren(bs[..k], input);
      LoadChildren(bs, input) == LoadOutcome(o.blocks + bs[k..], o.rest, o.failedAt)
  {
    if k < |bs| {
      assert bs[..|bs| - 1][..k] == bs[..k];
      LoadFailureStays(bs[..|bs| - 1], input, k);
      assert bs[k..] == bs[..|bs| - 1][k..] + [bs[|bs| - 1]];
    } else {
      assert bs[..k] == bs;
    }
  }

  /** The whole of `loadParameters`: the result, and the children afterwards. */
  function Loaded(bs: seq<Block>, input: Bytes): (Result<Bytes, Error>, seq<Block>)
  {
    if |input| == 0 then (Err(EndOfStream), bs)
    else if input[0] != VERSION then (Err(UnsupportedVersion(input[0])), bs)
    else
      var o := LoadChildren(bs, input[1..]);
      (if o.failedAt.Some? then Err(ChildLoadFailed(o.failedAt.value)) else Ok(o.rest), o.blocks)
  }

  /** The whole of `saveParameters`: the version byte, then the children. */
  function Saved(bs: seq<Block>): Bytes
  {
    [VERSION] + SaveChildren(bs)
  }

  /** A child's load reads back exactly what its save wrote for its parameters. */
  ghost predicate Inverts(b: Block)
  {
    forall rest: Bytes :: b.load(b.save(b.params) + rest) == Some((b.params, rest))
  }

  /** Loading what the children saved restores every child and leaves the rest of the stream. */
  lemma {:induction false} LoadChildrenRoundTrip(bs: seq<Block>, rest: Bytes)
    requires forall k :: 0 <= k < |bs| ==> Inverts(bs[k])
    ensures LoadChildren(bs, SaveChildren(bs) + rest) == LoadOutcome(bs, rest, None)
  {
    if |bs| > 0 {
      var init, b := bs[..|bs| - 1], bs[|bs| - 1];
      var tail := b.save(b.params) + rest;
      assert SaveChildren(bs) + rest == SaveChildren(init) + tail;
      LoadChildrenRoundTrip(init, tail);
      assert Inverts(b);
      assert b.load(tail) == Some((b.params, rest));
      assert init + [b.(params := b.params)] == bs;
    }
  }

  /** Loading what `saveParameters` wrote restores every child when each child's load inverts
      its save, and consumes exactly what was written. */
  lemma SaveLoadRoundTrip(bs: seq<Block>, rest: Bytes)
    requires forall k :: 0 <= k < |bs| ==> Inverts(bs[k])
    ensures Loaded(bs, Saved(bs) + rest) == (Ok(rest), bs)
  {
    assert (Saved(bs) + rest)[1..] == SaveChildren(bs) + rest;
    LoadChildrenRoundTrip(bs, rest);
  }

  /** The version byte is checked before any child reads: a stream that starts with any other
      byte changes no child, whatever the children and the rest of the stream. */
  lemma LoadChecksVersionFirst(bs: seq<Block>, version: bv8, rest: Bytes)
    requires version != VERSION
    ensures Loaded(bs, [version] + rest) == (Err(UnsupportedVersion(version)), bs)
  {
  }

  /** The loop of `loadParameters`: each child in turn loads from what the one before it left
      of the stream; the first failure ends the loop. */
  method LoadEach(bs: seq<Block>, input: Bytes) returns (o: LoadOutcome)
    ensures o == LoadChildren(bs, input)
  {
    var loaded := [];
    var stream := input;
    var i := 0;
    while i < |bs|
      invariant 0 <= i <= |bs|
      invariant LoadChildren(bs[..i], input) == LoadOutcome(loaded, stream, None)
    {
      assert bs[..i + 1][..i] == bs[..i];
      var r := bs[i].load(stream);
      if r.None? {
        LoadFailureStays(bs, input, i + 1);
        assert bs[i..] == [bs[i]] + bs[i + 1..];
        return LoadOutcome(loaded + bs[i..], stream, Some(i));
      }
      loaded := loaded + [bs[i].(params := r.value.0)];
      stream := r.value.1;
      i := i + 1;
    }
    assert bs[..i] == bs;
    return LoadOutcome(loaded, stream, None);
  }

  // ---------------------------------------------------------------- the block

  class SequentialBlock {
    var blocks: seq<Block>
    var initialized: bool

    constructor()
      ensures blocks == [] && !initialized
    {
      blocks := [];
      initialized := false;
    }

    /** `add(Block)`. */
    method Add(block: Block)
      modifies this
      ensures blocks == old(blocks) + [block] && !initialized
    {
      blocks := blocks + [block];
      initialized := false;
    }

    /** Both `addAll` overloads: the blocks are appended in argument order. */
    method AddAll(bs: seq<Block>)
      modifies this
      ensures blocks == old(blocks) + bs && !initialized
    {
      blocks := blocks + bs;
      initialized := false;
    }

    /** `add(Function)`: the function wrapped by `lambdaBlock` (the `LambdaBlock` constructor). */
    method AddFunction(f: NDList -> NDList, lambdaBlock: (NDList -> NDList) -> Block)
      modifies this
      ensures blocks == old(blocks) + [lambdaBlock(f)] && !initialized
    {
      blocks := blocks + [lambdaBlock(f)];
      initialized := false;
    }

    /** `removeLastBlock`: fails on an empty list; `initialized` is left alone. */
    method RemoveLastBlock() returns (r: Result<(), Error>)
      modifies this
      ensures initialized == old(initialized)
      ensures old(blocks) == [] ==> r == Err(IndexOutOfBounds(-1)) && blocks == []
      ensures old(blocks) != [] ==> r.Ok? && blocks == old(blocks)[..|old(blocks)| - 1]
    {
      if |blocks| == 0 {
        return Err(IndexOutOfBounds(-1));
      }
      blocks := blocks[..|blocks| - 1];
      return Ok(());
    }

    /** `replaceLastBlock`: keeps the length and changes only the last slot; fails on an empty
      list before adding anything. */
    method ReplaceLastBlock(block: Block) returns (r: Result<(), Error>)
      modifies this
      ensures initialized == old(initialized)
      ensures old(blocks) == [] ==> r == Err(IndexOutOfBounds(-1)) && blocks == []
      ensures old(blocks) != [] ==>
        r.Ok? && |blocks| == |old(blocks)|
        && blocks[..|blocks| - 1] == old(blocks)[..|old(blocks)| - 1] && blocks[|blocks| - 1] == block
    {
      r := RemoveLastBlock();
      if r.Err? {
        return;
      }
      blocks := blocks + [block];
    }

    /** `forward`: each child's output feeds the next; intermediate lists are closed. */
    method Forward(inputs: NDList) returns (out: NDList, closed: seq<NDList>)
      ensures out == Fold(ForwardFns(blocks), inputs)
      ensures closed == ClosedLists(ForwardFns(blocks), inputs)
    {
      var fs := ForwardFns(blocks);
      var current := inputs;
      closed := [];
      var i := 0;
      while i < |blocks|
        invariant 0 <= i <= |blocks|
        invariant current == Fold(fs[..i], inputs)
        invariant closed == ClosedLists(fs[..i], inputs)
      {
        var previous := current;
        current := blocks[i].forward(current);
        if previous.id != inputs.id {
          closed := closed + [previous];
        }
        assert fs[..i + 1][..i] == fs[..i];
        i := i + 1;
      }
      assert fs[..i] == fs;
      return current, closed;
    }

    /** `getOutputShapes`: the children's shape functions in order; fails on an empty list. */
    method GetOutputShapes(inputs: seq<Shape>) returns (r: Result<seq<Shape>, Error>)
      ensures blocks == [] <==> r == Err(EmptySequential)
      ensures blocks != [] ==> r == Ok(Fold(ShapeFns(blocks), inputs))
    {
      if |blocks| == 0 {
        return Err(EmptySequential);
      }
      var fs := ShapeFns(blocks);
      var current := inputs;
      var i := 0;
      while i < |blocks|
        invariant 0 <= i <= |blocks|
        invariant current == Fold(fs[..i], inputs)
      {
        current := blocks[i].outputShapes(current);
        assert fs[..i + 1][..i] == fs[..i];
        i := i + 1;
      }
      assert fs[..i] == fs;
      return Ok(current);
    }

    /** `initialize`: the first call initializes every child in order, each on the shapes the one
      before it returned (`inits[k]` is what child `k` received); later calls initialize none.
      Either way the result is `getOutputShapes` of the inputs. */
    method Initialize(inputShapes: seq<Shape>) returns (r: Result<seq<Shape>, Error>, inits: seq<seq<Shape>>)
      modifies this
      ensures blocks == old(blocks) && initialized
      ensures old(initialized) ==> inits == []
      ensures !old(initialized) ==> inits == Feeds(InitFns(blocks), inputShapes)
      ensures blocks == [] <==> r == Err(EmptySequential)
      ensures blocks != [] ==> r == Ok(Fold(ShapeFns(blocks), inputShapes))
    {
      inits := [];
      if !initialized {
        var fs := InitFns(blocks);
        var shapes := inputShapes;
        var i := 0;
        while i < |blocks|
          invariant 0 <= i <= |blocks|
          invariant shapes == Fold(fs[..i], inputShapes)
          invariant inits == Feeds(fs[..i], inputShapes)
        {
          inits := inits + [shapes];
          shapes := blocks[i].initialize(shapes);
          assert fs[..i + 1][..i] == fs[..i];
          i := i + 1;
        }
        assert fs[..i] == fs;
        initialized := true;
      }
      r := GetOutputShapes(inputShapes);
    }

    /** `getDirectParameters`: a sequential block owns no parameters of its own. */
    function DirectParameters(): seq<string>
    {
      []
    }

    /** `getParameterShape`: always fails. */
    function ParameterShape(name: string, inputShapes: seq<Shape>): Result<Shape, Error>
    {
      Err(NoParameters)
    }

    /** `getChildren`: one entry per child in insertion order, named by position and class. */
    method GetChildren() returns (children: seq<(string, Block)>)
      ensures |children| == |blocks|
      ensures forall i :: 0 <= i < |blocks| ==> children[i] == (ChildName(i, |blocks|, blocks[i].className), blocks[i])
    {
      var size := |blocks|;
      var precision := DigitCount(size);
      children := [];
      for i := 0 to size
        invariant |children| == i
        invariant forall k :: 0 <= k < i ==> children[k] == (ChildName(k, size, blocks[k].className), blocks[k])
      {
        var block := blocks[i];
        var name := Pad(i, precision) + ":" + block.className;
        children := children + [(name, block)];
      }
    }

    /** `saveParameters`: appends the version byte and then every child's parameters to `os`. */
    method SaveParameters(os: Bytes) returns (written: Bytes)
      ensures written == os + Saved(blocks)
    {
      written := os + [VERSION];
      for i := 0 to |blocks|
        invariant written == os + [VERSION] + SaveChildren(blocks[..i])
      {
        assert blocks[..i + 1][..i] == blocks[..i];
        written := written + blocks[i].save(blocks[i].params);
      }
      assert blocks[..|blocks|] == blocks;
    }

    /** `loadParameters`: checks the version byte, then loads every child in order from the
      stream; returns what is left of the stream. A failing child leaves the children before it
      loaded and the ones after it untouched. */
    method LoadParameters(input: Bytes) returns (r: Result<Bytes, Error>)
      modifies this
      ensures (r, blocks) == Loaded(old(blocks), input)
      ensures initialized == old(initialized)
    {
      if |input| == 0 {
        return Err(EndOfStream);
      }
      var version := input[0];
      if version != VERSION {
        return Err(UnsupportedVersion(version));
      }
      var o := LoadEach(blocks, input[1..]);
      blocks := o.blocks;
      if o.failedAt.Some? {
        return Err(ChildLoadFailed(o.failedAt.value));
      }
      return Ok(o.rest);
    }
  }

  /** The block has no parameters of its own to list or to shape. */
  lemma NoDirectParameters(sb: SequentialBlock, name: string, inputShapes: seq<Shape>)
    ensures sb.DirectParameters() == [] && sb.ParameterShape(name, inputShapes) == Err(NoParameters)
  {
  }
}
